/** What holds of every research phase, whatever the world answers and wherever it fails. */
module ResearchLaws {
  import opened Wrappers
  import opened KnowledgeGraph
  import opened AgentStates
  import N = ResearchNodes
  import opened AgentRow
  import opened Faults
  import opened ResearchRun

  // ---- Bounded retries ----

  function SearchesLeft(deps: N.Deps, node: Node, s: AgentState): int {
    if Stage(node) > 6 then deps.searchRetries + 1
    else if node == Search then deps.searchRetries - s.searchAttempts + 1
    else if node == Broaden then deps.searchRetries - s.searchAttempts
    else 0
  }

  function BroadensLeft(deps: N.Deps, node: Node, s: AgentState): int {
    if Stage(node) > 6 then deps.searchRetries
    else if Stage(node) == 6 then deps.searchRetries - s.searchAttempts
    else 0
  }

  function CritiquesLeft(deps: N.Deps, node: Node, s: AgentState): int {
    if Stage(node) > 2 then deps.critiqueRetries + 1
    else if Stage(node) == 2 then deps.critiqueRetries - s.critiqueAttempts + 1
    else 0
  }

  function StructuresLeft(deps: N.Deps, node: Node, s: AgentState): int {
    if Stage(node) > 2 then deps.critiqueRetries + 1
    else if node == Structure then deps.critiqueRetries - s.critiqueAttempts + 1
    else if node == Critique then deps.critiqueRetries - s.critiqueAttempts
    else 0
  }

  function Is(node: Node, other: Node): nat {
    if node == other then 1 else 0
  }

  lemma SearchBudget(deps: N.Deps, node: Node, s: AgentState, a: N.Answer)
    requires OnTrack(deps, node, s) && Stage(node) > 0
    ensures
      var r := ReduceAll(s, Visit(deps, node, s, a));
      SearchesLeft(deps, Next(deps, node, r), r) + Is(node, Search) <= SearchesLeft(deps, node, s)
  {
    AfterVisit(deps, node, s, a);
  }

  lemma BroadenBudget(deps: N.Deps, node: Node, s: AgentState, a: N.Answer)
    requires OnTrack(deps, node, s) && Stage(node) > 0
    ensures
      var r := ReduceAll(s, Visit(deps, node, s, a));
      BroadensLeft(deps, Next(deps, node, r), r) + Is(node, Broaden) <= BroadensLeft(deps, node, s)
  {
    AfterVisit(deps, node, s, a);
  }

  lemma CritiqueBudget(deps: N.Deps, node: Node, s: AgentState, a: N.Answer)
    requires OnTrack(deps, node, s) && Stage(node) > 0
    ensures
      var r := ReduceAll(s, Visit(deps, node, s, a));
      CritiquesLeft(deps, Next(deps, node, r), r) + Is(node, Critique) <= CritiquesLeft(deps, node, s)
  {
    AfterVisit(deps, node, s, a);
  }

  lemma StructureBudget(deps: N.Deps, node: Node, s: AgentState, a: N.Answer)
    requires OnTrack(deps, node, s) && Stage(node) > 0
    ensures
      var r := ReduceAll(s, Visit(deps, node, s, a));
      StructuresLeft(deps, Next(deps, node, r), r) + Is(node, Structure) <= StructuresLeft(deps, node, s)
  {
    AfterVisit(deps, node, s, a);
  }

  function Count(visits: seq<Node>, node: Node): nat {
    multiset(visits)[node]
  }

  /** Visits of a node that a research phase adds. */
  function Added(d: Drive, r: Drive, node: Node): int {
    Count(r.visits, node) - Count(d.visits, node)
  }

  /** What is left of each budget covers the visits a research phase adds. */
  predicate Within(deps: N.Deps, node: Node, d: Drive, r: Drive) {
    && Added(d, r, Search) <= SearchesLeft(deps, node, d.state)
    && Added(d, r, Broaden) <= BroadensLeft(deps, node, d.state)
    && Added(d, r, Structure) <= StructuresLeft(deps, node, d.state)
    && Added(d, r, Critique) <= CritiquesLeft(deps, node, d.state)
  }

  /** One visit takes its own kind out of the budget, and what it leaves is the budget of the next. */
  predicate Spends(deps: N.Deps, node: Node, d: Drive, next: Node, v: Drive) {
    && SearchesLeft(deps, next, v.state) + Is(node, Search) <= SearchesLeft(deps, node, d.state)
    && BroadensLeft(deps, next, v.state) + Is(node, Broaden) <= BroadensLeft(deps, node, d.state)
    && StructuresLeft(deps, next, v.state) + Is(node, Structure) <= StructuresLeft(deps, node, d.state)
    && CritiquesLeft(deps, next, v.state) + Is(node, Critique) <= CritiquesLeft(deps, node, d.state)
  }

  lemma VisitSpends(deps: N.Deps, o: Oracle, k: nat, node: Node, d: Drive)
    requires OnTrack(deps, node, d.state) && Stage(node) > 0 && VisitOnce(deps, o, k, node, d).signal == Proceed
    ensures var v := VisitOnce(deps, o, k, node, d); Spends(deps, node, d, Next(deps, node, v.state), v)
  {
    VisitAdvances(deps, o, k, node, d);
    SearchBudget(deps, node, d.state, o.answer(k));
    BroadenBudget(deps, node, d.state, o.answer(k));
    StructureBudget(deps, node, d.state, o.answer(k));
    CritiqueBudget(deps, node, d.state, o.answer(k));
  }

  lemma SpentWithin(deps: N.Deps, node: Node, d: Drive, next: Node, v: Drive, r: Drive)
    requires v.visits == d.visits + [node] && Spends(deps, node, d, next, v) && Within(deps, next, v, r)
    ensures Within(deps, node, d, r)
  {
    OneVisit(d, v, node);
    assert Added(d, v, Search) == Is(node, Search) && Added(d, v, Broaden) == Is(node, Broaden);
    assert Added(d, v, Structure) == Is(node, Structure) && Added(d, v, Critique) == Is(node, Critique);
  }

  lemma LastVisitWithin(deps: N.Deps, node: Node, d: Drive, v: Drive)
    requires OnTrack(deps, node, d.state) && Stage(node) > 0 && v.visits == d.visits + [node]
    ensures Within(deps, node, d, v)
  {
    OneVisit(d, v, node);
    assert Added(d, v, Search) == Is(node, Search) && Added(d, v, Broaden) == Is(node, Broaden);
    assert Added(d, v, Structure) == Is(node, Structure) && Added(d, v, Critique) == Is(node, Critique);
  }

  lemma {:induction false} VisitBounds(deps: N.Deps, o: Oracle, k: nat, node: Node, d: Drive)
    requires OnTrack(deps, node, d.state) && d.signal == Proceed
    ensures Within(deps, node, d, Research(deps, o, k, node, d))
    decreases Stage(node), Retries(deps, node, d.state), if node == Search || node == Structure then 1 else 0
  {
    if Stage(node) > 0 {
      var v := VisitOnce(deps, o, k, node, d);
      VisitAdvances(deps, o, k, node, d);
      if v.signal == Proceed {
        StaysOnTrack(deps, node, d.state, o.answer(k));
        var next := Next(deps, node, v.state);
        VisitBounds(deps, o, k + 1, next, v);
        VisitSpends(deps, o, k, node, d);
        SpentWithin(deps, node, d, next, v, Research(deps, o, k + 1, next, v));
      } else {
        LastVisitWithin(deps, node, d, v);
      }
    }
  }

  lemma OneVisit(d: Drive, v: Drive, node: Node)
    requires v.visits == d.visits + [node]
    ensures forall other :: Added(d, v, other) == Is(node, other)
  {
    assert multiset(v.visits) == multiset(d.visits) + multiset{node};
  }

  predicate EndsIn(visits: seq<Node>, node: Node) {
    visits != [] && visits[|visits| - 1] == node
  }

  lemma OnlyLookupEnds(deps: N.Deps, node: Node, s: AgentState)
    requires Stage(node) > 0
    ensures Stage(Next(deps, node, s)) == 0 <==> node == Lookup
    ensures Next(deps, node, s) == Critique <==> node == Structure
  {
  }

  /** Structure visits still owed their critique. */
  function Owed(d: Drive, r: Drive, node: Node): int {
    Added(d, r, Structure) + Is(node, Critique) - Added(d, r, Critique)
  }

  lemma OwedAdds(d: Drive, v: Drive, r: Drive, node: Node, next: Node)
    requires v.visits == d.visits + [node] && (next == Critique <==> node == Structure)
    ensures Owed(d, r, node) == Owed(v, r, next)
  {
    OneVisit(d, v, node);
    assert Added(d, v, Structure) == Is(node, Structure) && Added(d, v, Critique) == Is(node, Critique);
  }

  lemma OwedAtLast(d: Drive, v: Drive, node: Node)
    requires v.visits == d.visits + [node]
    ensures Owed(d, v, node) == if EndsIn(v.visits, Structure) then 1 else 0
  {
    OneVisit(d, v, node);
    assert Added(d, v, Structure) == Is(node, Structure) && Added(d, v, Critique) == Is(node, Critique);
  }

  /** A structure visit is without its critique exactly if it is the last visit there was. */
  lemma {:induction false} Balanced(deps: N.Deps, o: Oracle, k: nat, node: Node, d: Drive)
    requires OnTrack(deps, node, d.state) && d.signal == Proceed && (Stage(node) == 0 ==> EndsIn(d.visits, Lookup))
    ensures var r := Research(deps, o, k, node, d); Owed(d, r, node) == if EndsIn(r.visits, Structure) then 1 else 0
    decreases Stage(node), Retries(deps, node, d.state), if node == Search || node == Structure then 1 else 0
  {
    if Stage(node) > 0 {
      var v := VisitOnce(deps, o, k, node, d);
      VisitAdvances(deps, o, k, node, d);
      if v.signal == Proceed {
        StaysOnTrack(deps, node, d.state, o.answer(k));
        var next := Next(deps, node, v.state);
        OnlyLookupEnds(deps, node, v.state);
        Balanced(deps, o, k + 1, next, v);
        OwedAdds(d, v, Research(deps, o, k + 1, next, v), node, next);
      } else {
        OwedAtLast(d, v, node);
      }
    }
  }

  /**
    Every run ends.  search runs at most R+1 times, broaden_queries at most R, structure and critique
    at most C+1 each; and they run equally often, unless the run was stopped right after a structure.
   */
  lemma RunBounds(deps: N.Deps, o: Oracle, owner: UserId, row: Row)
    ensures
      var r := Research(deps, o, 0, Node.Plan, StartDrive(owner, row));
      && Count(r.visits, Search) <= deps.searchRetries + 1
      && Count(r.visits, Broaden) <= deps.searchRetries
      && Count(r.visits, Structure) <= deps.critiqueRetries + 1
      && Count(r.visits, Critique) <= deps.critiqueRetries + 1
      && Count(r.visits, Structure) == Count(r.visits, Critique) + (if EndsIn(r.visits, Structure) then 1 else 0)
      && (r.signal == Proceed ==> EndsIn(r.visits, Lookup))
  {
    var start := StartDrive(owner, row);
    VisitBounds(deps, o, 0, Node.Plan, start);
    Balanced(deps, o, 0, Node.Plan, start);
    ReachesLookup(deps, o, 0, Node.Plan, start);
  }

  /** A research phase that is not stopped by a failure ends with lookup. */
  lemma {:induction false} ReachesLookup(deps: N.Deps, o: Oracle, k: nat, node: Node, d: Drive)
    requires OnTrack(deps, node, d.state) && Stage(node) > 0 && d.signal == Proceed
    ensures var r := Research(deps, o, k, node, d); r.signal == Proceed ==> EndsIn(r.visits, Lookup)
    decreases Stage(node), Retries(deps, node, d.state), if node == Search || node == Structure then 1 else 0
  {
    var v := VisitOnce(deps, o, k, node, d);
    VisitAdvances(deps, o, k, node, d);
    if v.signal == Proceed {
      StaysOnTrack(deps, node, d.state, o.answer(k));
      OnlyLookupEnds(deps, node, v.state);
      if node != Lookup { ReachesLookup(deps, o, k + 1, Next(deps, node, v.state), v); }
    }
  }

  // ---- Notes are only ever appended ----

  lemma {:induction false} ConsiderAllAppends(s: N.Search, urls: seq<Url>, safe: Url -> bool, limit: nat)
    ensures s.skipped <= N.ConsiderAll(s, urls, safe, limit).skipped
    decreases urls
  {
    if urls != [] { ConsiderAllAppends(N.Consider(s, urls[0], safe, limit), urls[1..], safe, limit); }
  }

  lemma {:induction false} RunQueriesAppends(s: N.Search, queries: seq<string>, n: nat, a: N.Answer, limit: nat)
    requires n <= |queries|
    ensures s.skipped <= N.RunQueries(s, queries, n, a, limit).skipped
    decreases |queries| - n
  {
    if n < |queries| {
      match a.results(n)
      case None => RunQueriesAppends(s.(skipped := s.skipped + [QueryFailed(queries[n])]), queries, n + 1, a, limit);
      case Some(urls) => {
        ConsiderAllAppends(s, urls, a.safe, limit);
        RunQueriesAppends(N.ConsiderAll(s, urls, a.safe, limit), queries, n + 1, a, limit);
      }
    }
  }

  lemma {:induction false} LookUpAppends(
    text: Text, byName: map<string, string>, l: N.Lookup, drafts: seq<DraftEntity>, n: nat, a: N.Answer)
    requires n <= |drafts|
    ensures l.skipped <= N.LookUp(text, byName, l, drafts, n, a).skipped
    decreases |drafts| - n
  {
    if n < |drafts| {
      LookUpAppends(text, byName, N.LookUpOne(text, byName, l, drafts[n], a.article(n)), drafts, n + 1, a);
    }
  }

  lemma VisitAppends(deps: N.Deps, node: Node, s: AgentState, a: N.Answer)
    ensures s.skipped <= ReduceAll(s, Visit(deps, node, s, a)).skipped
  {
    AfterVisit(deps, node, s, a);
    if node == Search && s.plan.Some? {
      RunQueriesAppends(N.Search({}, [], s.skipped), s.plan.value.queries, 0, a, deps.maxSources);
    } else if node == Lookup {
      LookupAppends(deps, s, a);
    }
  }

  lemma LookupAppends(deps: N.Deps, s: AgentState, a: N.Answer)
    ensures s.skipped <= Or(N.LookupUpdate(deps, s, a).skipped, s.skipped)
  {
    var d := DraftsOf(s);
    if d.entities != [] && deps.wikiTools {
      var toEnrich := N.Take(d.entities, deps.lookupCap);
      var notes := if d.entities[|toEnrich|..] == [] then s.skipped
                   else s.skipped + [LookupCapped(|toEnrich|, |d.entities|)];
      LookUpAppends(deps.text, N.ByName(deps.text, d.entities), N.Lookup([], [], notes), toEnrich, 0, a);
    }
  }

  ghost predicate NotesGrow(states: seq<AgentState>) {
    forall i, j | 0 <= i <= j < |states| :: states[i].skipped <= states[j].skipped
  }

  lemma GrowOnce(states: seq<AgentState>, s: AgentState)
    requires states != [] && NotesGrow(states) && states[|states| - 1].skipped <= s.skipped
    ensures NotesGrow(states + [s])
  {
    assert forall i | 0 <= i < |states| :: states[i].skipped <= states[|states| - 1].skipped;
  }

  ghost predicate NotesKept(d: Drive) {
    d.states != [] && d.states[|d.states| - 1] == d.state && NotesGrow(d.states)
  }

  lemma VisitKeepsNotes(deps: N.Deps, o: Oracle, k: nat, node: Node, d: Drive)
    requires NotesKept(d)
    ensures NotesKept(VisitOnce(deps, o, k, node, d)) && d.states <= VisitOnce(deps, o, k, node, d).states
  {
    VisitAdvances(deps, o, k, node, d);
    VisitAppends(deps, node, d.state, o.answer(k));
    if o.visit(k) == Fine { GrowOnce(d.states, VisitOnce(deps, o, k, node, d).state); }
  }

  lemma {:induction false} NotesOnlyGrow(deps: N.Deps, o: Oracle, k: nat, node: Node, d: Drive)
    requires OnTrack(deps, node, d.state)
    requires NotesKept(d)
    ensures NotesKept(Research(deps, o, k, node, d)) && d.states <= Research(deps, o, k, node, d).states
    decreases Stage(node), Retries(deps, node, d.state), if node == Search || node == Structure then 1 else 0
  {
    if Stage(node) > 0 && d.signal == Proceed {
      var v := VisitOnce(deps, o, k, node, d);
      VisitKeepsNotes(deps, o, k, node, d);
      if v.signal == Proceed {
        VisitAdvances(deps, o, k, node, d);
        StaysOnTrack(deps, node, d.state, o.answer(k));
        NotesOnlyGrow(deps, o, k + 1, Next(deps, node, v.state), v);
      }
    }
  }

  // ---- The driver's shadow ----

  function OverwriteAll(s: AgentState, us: seq<Update>): AgentState {
    if us == [] then s else Overwrite(OverwriteAll(s, us[..|us| - 1]), us[|us| - 1])
  }

  lemma {:induction false} FoldsAgree(shadow: AgentState, s: AgentState, us: seq<Update>)
    requires Agree(shadow, s)
    ensures Agree(OverwriteAll(shadow, us), ReduceAll(s, us))
  {
    if us != [] { FoldsAgree(shadow, s, us[..|us| - 1]); }
  }

  lemma {:induction false} OverwriteFront(s: AgentState, us: seq<Update>)
    requires us != []
    ensures OverwriteAll(s, us) == OverwriteAll(Overwrite(s, us[0]), us[1..])
  {
    if |us| == 1 {
      assert us[..0] == [] && us[1..] == [];
    } else {
      OverwriteFront(s, us[..|us| - 1]);
      assert us[..|us| - 1][1..] == us[1..][..|us[1..]| - 1];
    }
  }

  lemma {:induction false} PersistedShadow(d: Drive, o: Oracle, node: Node, us: seq<Update>)
    requires d.signal == Proceed
    ensures Persist(d, o, node, us).signal == Proceed ==> Persist(d, o, node, us).shadow == OverwriteAll(d.shadow, us)
    decreases us
  {
    if us != [] {
      var p := PersistOne(d, o, node, us[0]);
      OverwriteFront(d.shadow, us);
      if p.signal == Proceed { PersistedShadow(p, o, node, us[1..]); }
    }
  }

  /** Though it folds updates differently, the driver's copy ends equal to the engine's on every key but one. */
  lemma {:induction false} ShadowAgrees(deps: N.Deps, o: Oracle, k: nat, node: Node, d: Drive)
    requires OnTrack(deps, node, d.state) && Agree(d.shadow, d.state)
    ensures var r := Research(deps, o, k, node, d); r.signal == Proceed ==> Agree(r.shadow, r.state)
    decreases Stage(node), Retries(deps, node, d.state), if node == Search || node == Structure then 1 else 0
  {
    if Stage(node) > 0 && d.signal == Proceed {
      var us := Visit(deps, node, d.state, o.answer(k));
      var state := ReduceAll(d.state, us);
      var visited := d.(visits := d.visits + [node], state := state, states := d.states + [state]);
      VisitAdvances(deps, o, k, node, d);
      var v := VisitOnce(deps, o, k, node, d);
      if v.signal == Proceed {
        PersistedShadow(visited, o, node, us);
        FoldsAgree(d.shadow, d.state, us);
        StaysOnTrack(deps, node, d.state, o.answer(k));
        ShadowAgrees(deps, o, k + 1, Next(deps, node, state), v);
      }
    }
  }

  // ---- Nothing is committed yet ----

  predicate Uncommitted(s: AgentState, owner: UserId) {
    s.owner == owner && s.committedEntities == [] && s.committedRelationships == [] && s.created == []
  }

  predicate CommitsNothing(u: Update) {
    u.committedEntities == None && u.committedRelationships == None && u.created == None
  }

  lemma VisitCommitsNothing(deps: N.Deps, node: Node, s: AgentState, a: N.Answer)
    ensures forall u | u in Visit(deps, node, s, a) :: CommitsNothing(u)
  {
  }

  predicate SameButProgress(before: Row, after: Row) {
    after == before.(currentNode := after.currentNode, plan := after.plan)
  }

  lemma {:induction false} PersistUncommitted(d: Drive, o: Oracle, node: Node, us: seq<Update>, owner: UserId)
    requires Uncommitted(d.shadow, owner) && forall u | u in us :: CommitsNothing(u)
    ensures Uncommitted(Persist(d, o, node, us).shadow, owner)
    ensures SameButProgress(d.row, Persist(d, o, node, us).row)
    decreases us
  {
    if us != [] && d.signal == Proceed {
      assert us[0] in us;
      PersistUncommitted(PersistOne(d, o, node, us[0]), o, node, us[1..], owner);
    }
  }

  lemma VisitOnceCommitsNothing(deps: N.Deps, o: Oracle, k: nat, node: Node, d: Drive, owner: UserId)
    requires Uncommitted(d.state, owner) && Uncommitted(d.shadow, owner)
    ensures
      var v := VisitOnce(deps, o, k, node, d);
      Uncommitted(v.state, owner) && Uncommitted(v.shadow, owner) && SameButProgress(d.row, v.row)
  {
    var us := Visit(deps, node, d.state, o.answer(k));
    var state := ReduceAll(d.state, us);
    VisitAdvances(deps, o, k, node, d);
    AfterVisit(deps, node, d.state, o.answer(k));
    VisitCommitsNothing(deps, node, d.state, o.answer(k));
    PersistUncommitted(
      d.(visits := d.visits + [node], state := state, states := d.states + [state]), o, node, us, owner);
  }

  /** Research writes nothing but progress, and even its failures leave nothing to report as committed. */
  lemma {:induction false} ResearchCommitsNothing(deps: N.Deps, o: Oracle, k: nat, node: Node, d: Drive, owner: UserId)
    requires OnTrack(deps, node, d.state) && Uncommitted(d.state, owner) && Uncommitted(d.shadow, owner)
    ensures
      var r := Research(deps, o, k, node, d);
      Uncommitted(r.state, owner) && Uncommitted(r.shadow, owner) && SameButProgress(d.row, r.row)
    decreases Stage(node), Retries(deps, node, d.state), if node == Search || node == Structure then 1 else 0
  {
    if Stage(node) > 0 && d.signal == Proceed {
      var v := VisitOnce(deps, o, k, node, d);
      VisitAdvances(deps, o, k, node, d);
      VisitOnceCommitsNothing(deps, o, k, node, d, owner);
      if v.signal == Proceed {
        StaysOnTrack(deps, node, d.state, o.answer(k));
        ResearchCommitsNothing(deps, o, k + 1, Next(deps, node, v.state), v, owner);
      }
    }
  }

  // ---- Drafted edges can be resolved ----

  function TempIds(entities: seq<DraftEntity>): set<string> {
    set e | e in entities :: e.tempId
  }

  predicate Resolvable(text: Text, tempIds: set<string>, ref: string) {
    ref in tempIds || text.parse(ref).Some?
  }

  predicate AllResolvable(text: Text, d: Drafts) {
    forall i | 0 <= i < |d.relationships| ::
      && Resolvable(text, TempIds(d.entities), d.relationships[i].fromRef)
      && Resolvable(text, TempIds(d.entities), d.relationships[i].toRef)
  }

  lemma {:induction false} KeptEdges(text: Text, known: set<string>, edges: seq<DraftRelationship>)
    ensures forall e ::
      e in N.Keep(text, known, edges) <==> e in edges && N.RefOk(text, known, e.fromRef) && N.RefOk(text, known, e.toRef)
  {
    if edges != [] {
      assert edges == edges[..|edges| - 1] + [edges[|edges| - 1]];
      KeptEdges(text, known, edges[..|edges| - 1]);
    }
  }

  /** Pruning keeps exactly the edges that commit will be able to resolve. */
  lemma PruneIsExact(text: Text, d: Drafts)
    requires ReadsBack(text)
    ensures AllResolvable(text, N.Prune(text, d)) && N.Prune(text, d).entities == d.entities
    ensures forall e :: e in N.Prune(text, d).relationships <==>
      e in d.relationships && Resolvable(text, TempIds(d.entities), e.fromRef) && Resolvable(text, TempIds(d.entities), e.toRef)
  {
    var known := N.Known(text, d.entities);
    KeptEdges(text, known, d.relationships);
    forall ref ensures N.RefOk(text, known, ref) <==> Resolvable(text, TempIds(d.entities), ref) {
    }
    var kept := N.Prune(text, d).relationships;
    forall i | 0 <= i < |kept| ensures Resolvable(text, TempIds(d.entities), kept[i].fromRef) && Resolvable(text, TempIds(d.entities), kept[i].toRef) {
      assert kept[i] in kept;
    }
  }

  lemma {:induction false} ByNameIsTempId(text: Text, entities: seq<DraftEntity>)
    ensures forall name | name in N.ByName(text, entities) :: N.ByName(text, entities)[name] in TempIds(entities)
  {
    if entities != [] {
      var n := |entities| - 1;
      assert forall e | e in entities[..n] :: e in entities;
      assert entities[n] in entities;
      ByNameIsTempId(text, entities[..n]);
    }
  }

  predicate EdgesWithin(tempIds: set<string>, edges: seq<DraftRelationship>) {
    forall i | 0 <= i < |edges| :: edges[i].fromRef in tempIds && edges[i].toRef in tempIds
  }

  lemma {:induction false} RelatedWithin(
    text: Text, byName: map<string, string>, from: string, related: seq<string>, tempIds: set<string>)
    requires from in tempIds && forall name | name in byName :: byName[name] in tempIds
    ensures EdgesWithin(tempIds, N.RelatedEdges(text, byName, from, related))
  {
    if related != [] { RelatedWithin(text, byName, from, related[..|related| - 1], tempIds); }
  }

  /** Same entities but for their attributes. */
  predicate OnlyAttributes(before: seq<DraftEntity>, after: seq<DraftEntity>) {
    |after| == |before| && forall i | 0 <= i < |before| :: after[i] == before[i].(attributes := after[i].attributes)
  }

  lemma {:induction false} LookUpWithin(
    text: Text, byName: map<string, string>, l: N.Lookup, drafts: seq<DraftEntity>, n: nat, a: N.Answer, tempIds: set<string>)
    requires n <= |drafts| && TempIds(drafts) <= tempIds
    requires forall name | name in byName :: byName[name] in tempIds
    requires OnlyAttributes(drafts[..n], l.entities) && EdgesWithin(tempIds, l.extra)
    ensures
      var r := N.LookUp(text, byName, l, drafts, n, a);
      OnlyAttributes(drafts, r.entities) && EdgesWithin(tempIds, r.extra)
    decreases |drafts| - n
  {
    if n == |drafts| {
      assert drafts[..n] == drafts;
    } else {
      assert drafts[n] in drafts && drafts[n].tempId in TempIds(drafts);
      if a.article(n).Some? { RelatedWithin(text, byName, drafts[n].tempId, a.article(n).value.related, tempIds); }
      LookUpWithin(text, byName, N.LookUpOne(text, byName, l, drafts[n], a.article(n)), drafts, n + 1, a, tempIds);
    }
  }

  lemma {:induction false} NotSeenWithin(tempIds: set<string>, edges: seq<DraftRelationship>, seen: seq<DraftRelationship>)
    requires EdgesWithin(tempIds, edges)
    ensures EdgesWithin(tempIds, N.NotSeen(edges, seen))
    ensures forall e | e in N.NotSeen(edges, seen) :: e in edges && e !in seen
  {
    if edges != [] {
      assert edges == edges[..|edges| - 1] + [edges[|edges| - 1]];
      NotSeenWithin(tempIds, edges[..|edges| - 1], seen);
    }
  }

  /** Lookup rewrites attributes only, keeps every drafted edge, and adds new ones between drafted entities. */
  lemma LookupExtends(deps: N.Deps, s: AgentState, a: N.Answer)
    ensures
      var before := DraftsOf(s);
      var after := Or(N.LookupUpdate(deps, s, a).structured, before);
      && OnlyAttributes(before.entities, after.entities)
      && before.relationships <= after.relationships
      && EdgesWithin(TempIds(before.entities), after.relationships[|before.relationships|..])
      && forall e | e in after.relationships[|before.relationships|..] :: e !in before.relationships
  {
    var d := DraftsOf(s);
    if d.entities != [] && deps.wikiTools {
      var toEnrich := N.Take(d.entities, deps.lookupCap);
      var rest := d.entities[|toEnrich|..];
      assert d.entities == toEnrich + rest;
      var notes := if rest == [] then s.skipped else s.skipped + [LookupCapped(|toEnrich|, |d.entities|)];
      var byName := N.ByName(deps.text, d.entities);
      ByNameIsTempId(deps.text, d.entities);
      assert TempIds(toEnrich) <= TempIds(d.entities) by {
        forall e | e in toEnrich ensures e.tempId in TempIds(d.entities) { assert e in d.entities; }
      }
      LookUpWithin(deps.text, byName, N.Lookup([], [], notes), toEnrich, 0, a, TempIds(d.entities));
      var l := N.LookUp(deps.text, byName, N.Lookup([], [], notes), toEnrich, 0, a);
      NotSeenWithin(TempIds(d.entities), l.extra, d.relationships);
      var added := N.NotSeen(l.extra, d.relationships);
      assert (d.relationships + added)[|d.relationships|..] == added;
    }
  }

  lemma SameTempIds(before: seq<DraftEntity>, after: seq<DraftEntity>)
    requires OnlyAttributes(before, after)
    ensures TempIds(before) == TempIds(after)
  {
    forall t | t in TempIds(before) ensures t in TempIds(after) {
      var i :| 0 <= i < |before| && before[i].tempId == t;
      assert after[i] in after && after[i].tempId == t;
    }
    forall t | t in TempIds(after) ensures t in TempIds(before) {
      var i :| 0 <= i < |after| && after[i].tempId == t;
      assert before[i] in before && before[i].tempId == t;
    }
  }

  lemma LookupKeepsResolvable(deps: N.Deps, s: AgentState, a: N.Answer)
    requires AllResolvable(deps.text, DraftsOf(s))
    ensures AllResolvable(deps.text, Or(N.LookupUpdate(deps, s, a).structured, DraftsOf(s)))
  {
    var before := DraftsOf(s);
    var after := Or(N.LookupUpdate(deps, s, a).structured, before);
    LookupExtends(deps, s, a);
    SameTempIds(before.entities, after.entities);
    var n := |before.relationships|;
    forall i | 0 <= i < |after.relationships|
      ensures Resolvable(deps.text, TempIds(after.entities), after.relationships[i].fromRef)
      ensures Resolvable(deps.text, TempIds(after.entities), after.relationships[i].toRef)
    {
      if i < n { assert after.relationships[i] == before.relationships[i]; }
      else { assert after.relationships[i] == after.relationships[n..][i - n]; }
    }
  }

  lemma VisitKeepsResolvable(deps: N.Deps, node: Node, s: AgentState, a: N.Answer)
    requires ReadsBack(deps.text) && AllResolvable(deps.text, DraftsOf(s))
    ensures AllResolvable(deps.text, DraftsOf(ReduceAll(s, Visit(deps, node, s, a))))
  {
    AfterVisit(deps, node, s, a);
    if node == Structure {
      if a.drafts.Some? { PruneIsExact(deps.text, N.Dedupe(deps.text, a.drafts.value, s.existing)); }
    } else if node == Lookup {
      LookupKeepsResolvable(deps, s, a);
    }
  }

  /** Whatever the model and the wiki answered, the drafts of a research phase resolve. */
  lemma {:induction false} DraftsResolvable(deps: N.Deps, o: Oracle, k: nat, node: Node, d: Drive)
    requires OnTrack(deps, node, d.state) && ReadsBack(deps.text) && AllResolvable(deps.text, DraftsOf(d.state))
    ensures AllResolvable(deps.text, DraftsOf(Research(deps, o, k, node, d).state))
    decreases Stage(node), Retries(deps, node, d.state), if node == Search || node == Structure then 1 else 0
  {
    if Stage(node) > 0 && d.signal == Proceed {
      var v := VisitOnce(deps, o, k, node, d);
      VisitAdvances(deps, o, k, node, d);
      VisitKeepsResolvable(deps, node, d.state, o.answer(k));
      if v.signal == Proceed {
        StaysOnTrack(deps, node, d.state, o.answer(k));
        DraftsResolvable(deps, o, k + 1, Next(deps, node, v.state), v);
      }
    }
  }
}
