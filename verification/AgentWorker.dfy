/**
  The worker: the jobs of AgentRuns as it carries them out, call by call, on the graph store and
  the row of one run.  An exception travels as the Signal a method returns.
 */
module AgentWorker {
  import opened Wrappers
  import opened KnowledgeGraph
  import opened GraphInvariants
  import opened GraphRuns
  import opened GraphService
  import opened AgentStates
  import N = ResearchNodes
  import opened AgentRow
  import opened Faults
  import opened ResearchRun
  import Commit = CommitNodes
  import opened CommitNodes
  import Runs = AgentRuns

  class Worker {
    const store: GraphStore
    var row: Row
    var calls: nat
    ghost var writes: seq<Op>

    constructor (store: GraphStore, row: Row)
      ensures this.store == store && this.row == row && calls == 0 && writes == []
    {
      this.store := store;
      this.row := row;
      calls := 0;
      writes := [];
    }

    ghost function View(): World
      reads this, store
    {
      World(store.View(), row.entityIds, row.relationshipIds, writes, calls)
    }

    // ---- Calls ----

    method Ask(c: CommitOracle) returns (signal: Signal)
      modifies this`calls
      ensures (View(), signal) == Commit.Ask(old(View()), c)
    {
      signal := Strike(c.fault(calls));
      calls := calls + 1;
    }

    method StoreEntity(c: CommitOracle, owner: UserId, draft: DraftEntity) returns (signal: Signal)
      requires Inv(store.View())
      modifies this`calls, this`writes, store
      ensures (View(), signal) == Commit.StoreEntity(old(View()), c, owner, draft) && Inv(store.View())
    {
      var f, id := c.fault(calls), c.id(calls);
      ghost var op := CreateOp(View(), c, owner, draft);
      StepKeepsInv(store.View(), op);
      signal := Strike(f);
      if id in store.entities {
        signal := if f == Fine then Raised else signal;
      } else if Applied(f) {
        var created := store.CreateEntity(owner, id, Private, draft.name, draft.kind, draft.attributes);
        writes := writes + [op];
      }
      calls := calls + 1;
    }

    method RecordEntity(c: CommitOracle, id: Uuid) returns (signal: Signal)
      modifies this`calls, this`row
      ensures (View(), signal) == Commit.RecordEntity(old(View()), c, id)
      ensures row == Runs.Stored(old(row), View())
    {
      var f := c.fault(calls);
      if Applied(f) { row := AppendCommittedEntity(row, id); }
      calls := calls + 1;
      signal := Strike(f);
    }

    method StoreSources(c: CommitOracle, owner: UserId, id: Uuid, urls: seq<Url>) returns (signal: Signal)
      requires Inv(store.View())
      modifies this`calls, this`writes, store
      ensures (View(), signal) == Commit.StoreSources(old(View()), c, owner, id, urls) && Inv(store.View())
    {
      var f := c.fault(calls);
      StepKeepsInv(store.View(), Attach(owner, id, urls));
      if Applied(f) {
        store.AttachSources(owner, id, urls);
        writes := writes + [Attach(owner, id, urls)];
      }
      calls := calls + 1;
      signal := Strike(f);
    }

    method StoreLink(c: CommitOracle, owner: UserId, src: Uuid, dst: Uuid, kind: string)
      returns (found: bool, signal: Signal)
      requires Inv(store.View())
      modifies this`calls, this`writes, store
      ensures (View(), found, signal) == Commit.StoreLink(old(View()), c, owner, src, dst, kind) && Inv(store.View())
    {
      var f := c.fault(calls);
      ghost var op := LinkOp(View(), c, owner, src, dst, kind);
      StepKeepsInv(store.View(), op);
      found := MayLink(store.View(), owner, src, dst, Private);
      if found && Applied(f) {
        var r := store.CreateRelationship(owner, c.id(calls), src, dst, kind, Private);
        writes := writes + [op];
      }
      calls := calls + 1;
      signal := Strike(f);
    }

    method RecordLink(c: CommitOracle, id: Uuid) returns (signal: Signal)
      modifies this`calls, this`row
      ensures (View(), signal) == Commit.RecordLink(old(View()), c, id)
      ensures row == Runs.Stored(old(row), View())
    {
      var f := c.fault(calls);
      if Applied(f) { row := AppendCommittedRelationship(row, id); }
      calls := calls + 1;
      signal := Strike(f);
    }

    // ---- commit ----

    method TryAttach(c: CommitOracle, owner: UserId, id: Uuid, urls: seq<Url>, notes: seq<Note>)
      returns (skipped: seq<Note>, signal: Signal)
      requires Inv(store.View())
      modifies this`calls, this`writes, store
      ensures (View(), skipped, signal) == Commit.TryAttach(old(View()), c, owner, id, urls, notes) && Inv(store.View())
    {
      skipped, signal := notes, Proceed;
      if urls != [] {
        signal := StoreSources(c, owner, id, urls);
        if signal == Raised {
          skipped, signal := skipped + [AttachFailed(id)], Proceed;
        }
      }
    }

    method TryEmbed(c: CommitOracle, name: string, notes: seq<Note>) returns (skipped: seq<Note>, signal: Signal)
      modifies this`calls
      ensures (View(), skipped, signal) == Commit.TryEmbed(old(View()), c, name, notes)
    {
      skipped := notes;
      signal := Ask(c);
      if signal == Proceed {
        signal := Ask(c);
      }
      if signal == Raised {
        skipped, signal := skipped + [EmbedFailed(name)], Proceed;
      }
    }

    method CommitEntity(c: CommitOracle, owner: UserId, urls: seq<Url>, draft: DraftEntity, before: EntityWork)
      returns (work: EntityWork, signal: Signal)
      requires Inv(store.View())
      modifies this, store
      ensures (View(), work, signal) == Commit.CommitEntity(old(View()), c, owner, urls, draft, before)
      ensures Inv(store.View()) && row == Runs.Stored(old(row), View())
    {
      work := before;
      if draft.existingId.Some? {
        work := work.(idMap := work.idMap[draft.tempId := draft.existingId.value]);
        return work, Proceed;
      }
      var id := c.id(calls);
      signal := StoreEntity(c, owner, draft);
      if signal != Proceed { return; }
      work := work.(idMap := work.idMap[draft.tempId := id], committed := work.committed + [id],
                    created := work.created + [DigestEntity(id, draft.name, draft.kind)]);
      signal := RecordEntity(c, id);
      if signal != Proceed { return; }
      var notes;
      notes, signal := TryAttach(c, owner, id, urls, work.skipped);
      if signal != Proceed { return; }
      notes, signal := TryEmbed(c, draft.name, notes);
      work := work.(skipped := notes);
    }

    method CommitEntities(c: CommitOracle, owner: UserId, urls: seq<Url>, drafts: seq<DraftEntity>, before: EntityWork)
      returns (work: EntityWork, signal: Signal)
      requires Inv(store.View())
      modifies this, store
      ensures (View(), work, signal) == Commit.CommitEntities(old(View()), c, owner, urls, drafts, before)
      ensures Inv(store.View()) && row == Runs.Stored(old(row), View())
    {
      work, signal := before, Proceed;
      for i := 0 to |drafts|
        invariant Inv(store.View()) && row == Runs.Stored(old(row), View()) && signal == Proceed
        invariant Commit.CommitEntities(View(), c, owner, urls, drafts[i..], work)
          == Commit.CommitEntities(old(View()), c, owner, urls, drafts, before)
      {
        assert drafts[i..][1..] == drafts[i + 1..];
        work, signal := CommitEntity(c, owner, urls, drafts[i], work);
        if signal != Proceed { return; }
      }
    }

    method MakeLink(c: CommitOracle, owner: UserId, src: Uuid, dst: Uuid, kind: string, before: LinkWork, refused: Note)
      returns (work: LinkWork, signal: Signal)
      requires Inv(store.View())
      modifies this, store
      ensures (View(), work, signal) == Commit.MakeLink(old(View()), c, owner, src, dst, kind, before, refused)
      ensures Inv(store.View()) && row == Runs.Stored(old(row), View())
    {
      work := before;
      var id := c.id(calls);
      var found;
      found, signal := StoreLink(c, owner, src, dst, kind);
      if signal != Proceed { return; }
      if !found {
        signal := Ask(c);
        if signal == Proceed {
          work := work.(skipped := work.skipped + [refused]);
        }
        return;
      }
      work := work.(committed := work.committed + [id]);
      signal := RecordLink(c, id);
    }

    method CommitRelationship(
      c: CommitOracle, text: Text, owner: UserId, edge: DraftRelationship, idMap: map<string, Uuid>, before: LinkWork)
      returns (work: LinkWork, signal: Signal)
      requires Inv(store.View())
      modifies this, store
      ensures (View(), work, signal) == Commit.CommitRelationship(old(View()), c, text, owner, edge, idMap, before)
      ensures Inv(store.View()) && row == Runs.Stored(old(row), View())
    {
      var src, dst := ResolveRef(text, idMap, edge.fromRef), ResolveRef(text, idMap, edge.toRef);
      if src == None || dst == None {
        work := before.(skipped := before.skipped + [UnresolvedEndpoint(edge.fromRef, edge.toRef)]);
        return work, Proceed;
      }
      work, signal := MakeLink(c, owner, src.value, dst.value, edge.kind, before,
                               EdgeRefused(edge.fromRef, edge.toRef, LinkRefusal.NotLinkable));
    }

    method CommitRelationships(
      c: CommitOracle, text: Text, owner: UserId, edges: seq<DraftRelationship>, idMap: map<string, Uuid>, before: LinkWork)
      returns (work: LinkWork, signal: Signal)
      requires Inv(store.View())
      modifies this, store
      ensures (View(), work, signal) == Commit.CommitRelationships(old(View()), c, text, owner, edges, idMap, before)
      ensures Inv(store.View()) && row == Runs.Stored(old(row), View())
    {
      work, signal := before, Proceed;
      for i := 0 to |edges|
        invariant Inv(store.View()) && row == Runs.Stored(old(row), View()) && signal == Proceed
        invariant Commit.CommitRelationships(View(), c, text, owner, edges[i..], idMap, work)
          == Commit.CommitRelationships(old(View()), c, text, owner, edges, idMap, before)
      {
        assert edges[i..][1..] == edges[i + 1..];
        work, signal := CommitRelationship(c, text, owner, edges[i], idMap, work);
        if signal != Proceed { return; }
      }
    }

    method CommitNode(c: CommitOracle, text: Text, s: AgentState) returns (u: Update, signal: Signal)
      requires Inv(store.View())
      modifies this, store
      ensures (View(), u, signal) == Commit.CommitNode(old(View()), c, text, s)
      ensures Inv(store.View()) && row == Runs.Stored(old(row), View())
    {
      u := NO_UPDATE;
      var d := DraftsOf(s);
      var entities, links;
      entities, signal :=
        CommitEntities(c, s.owner, Urls(s.documents), d.entities, EntityWork(map[], s.committedEntities, [], []));
      if signal != Proceed { return; }
      links, signal :=
        CommitRelationships(c, text, s.owner, d.relationships, entities.idMap, LinkWork(s.committedRelationships, []));
      if signal != Proceed { return; }
      u := u.(committedEntities := Some(entities.committed), committedRelationships := Some(links.committed),
              created := Some(entities.created), skipped := Some(s.skipped + entities.skipped + links.skipped));
    }

    // ---- enrich ----

    method LinksFor(c: CommitOracle, text: Text, own: set<Uuid>) returns (links: seq<(string, string)>, signal: Signal)
      modifies this`calls
      ensures (View(), links, signal) == Commit.LinksFor(old(View()), c, text, own)
    {
      links := [];
      signal := Ask(c);
      if signal == Proceed {
        var near := c.near(calls);
        signal := Ask(c);
        var candidates := Candidates(near, own);
        if signal == Proceed && candidates != [] {
          var answer := c.links(calls);
          signal := Ask(c);
          if signal == Proceed {
            links := ValidLinks(text, answer, CandidateIds(text, candidates));
          }
        }
      }
      if signal == Raised {
        signal := Proceed;
      }
    }

    method EnrichLinks(c: CommitOracle, text: Text, owner: UserId, entity: DigestEntity, links: seq<(string, string)>, before: LinkWork)
      returns (work: LinkWork, signal: Signal)
      requires Inv(store.View())
      modifies this, store
      ensures (View(), work, signal) == Commit.EnrichLinks(old(View()), c, text, owner, entity, links, before)
      ensures Inv(store.View()) && row == Runs.Stored(old(row), View())
    {
      work, signal := before, Proceed;
      for i := 0 to |links|
        invariant Inv(store.View()) && row == Runs.Stored(old(row), View()) && signal == Proceed
        invariant Commit.EnrichLinks(View(), c, text, owner, entity, links[i..], work)
          == Commit.EnrichLinks(old(View()), c, text, owner, entity, links, before)
      {
        assert links[i..][1..] == links[i + 1..];
        var target := text.parse(links[i].0);
        if target == None { return work, Raised; }
        work, signal := MakeLink(c, owner, entity.id, target.value, links[i].1, work,
                                 EnrichRefused(entity.name, links[i].0, LinkRefusal.NotLinkable));
        if signal != Proceed { return; }
      }
    }

    method EnrichAll(c: CommitOracle, text: Text, owner: UserId, own: set<Uuid>, entities: seq<DigestEntity>, before: LinkWork)
      returns (work: LinkWork, signal: Signal)
      requires Inv(store.View())
      modifies this, store
      ensures (View(), work, signal) == Commit.EnrichAll(old(View()), c, text, owner, own, entities, before)
      ensures Inv(store.View()) && row == Runs.Stored(old(row), View())
    {
      work, signal := before, Proceed;
      for i := 0 to |entities|
        invariant Inv(store.View()) && row == Runs.Stored(old(row), View()) && signal == Proceed
        invariant Commit.EnrichAll(View(), c, text, owner, own, entities[i..], work)
          == Commit.EnrichAll(old(View()), c, text, owner, own, entities, before)
      {
        assert entities[i..][1..] == entities[i + 1..];
        var links;
        links, signal := LinksFor(c, text, own);
        if signal != Proceed { return; }
        work, signal := EnrichLinks(c, text, owner, entities[i], links, work);
        if signal != Proceed { return; }
      }
    }

    method EnrichNode(c: CommitOracle, text: Text, s: AgentState) returns (u: Update, signal: Signal)
      requires Inv(store.View())
      modifies this, store
      ensures (View(), u, signal) == Commit.EnrichNode(old(View()), c, text, s)
      ensures Inv(store.View()) && row == Runs.Stored(old(row), View())
    {
      u, signal := NO_UPDATE, Proceed;
      if s.created == [] { return; }
      var own := set id | id in s.committedEntities;
      var work;
      work, signal := EnrichAll(c, text, s.owner, own, s.created, LinkWork(s.committedRelationships, s.skipped));
      if signal == Proceed {
        u := u.(committedRelationships := Some(work.committed), skipped := Some(work.skipped));
      }
    }

    // ---- The driver ----

    /** state.update and record_node.  `d` is what the specification makes of the driver's locals. */
    method PersistOne(o: Oracle, node: Node, u: Update, before: AgentState, count: nat, ghost d: Drive)
      returns (shadow: AgentState, marks: nat, signal: Signal)
      requires d.shadow == before && d.marks == count && row == Runs.Stored(d.row, View())
      modifies this`row
      ensures View() == old(View())
      ensures
        var p := ResearchRun.PersistOne(d, o, node, u);
        shadow == p.shadow && marks == p.marks && signal == p.signal && row == Runs.Stored(p.row, View())
    {
      shadow := Overwrite(before, u);
      var f := o.mark(count);
      if Applied(f) {
        row := RecordNode(row, node, if node == Node.Plan then shadow.plan else None);
      }
      marks := count + 1;
      signal := Strike(f);
    }

    method Persist(o: Oracle, node: Node, us: seq<Update>, before: AgentState, count: nat, ghost d: Drive)
      returns (shadow: AgentState, marks: nat, signal: Signal)
      requires d.shadow == before && d.marks == count && d.signal == Proceed && d.row == row
      modifies this`row
      ensures ResearchRun.Persist(d, o, node, us) == d.(shadow := shadow, row := row, marks := marks, signal := signal)
    {
      shadow, marks, signal := before, count, Proceed;
      for i := 0 to |us|
        invariant signal == Proceed
        invariant ResearchRun.Persist(d.(shadow := shadow, row := row, marks := marks, signal := Proceed), o, node, us[i..])
          == ResearchRun.Persist(d, o, node, us)
      {
        assert us[i..][1..] == us[i + 1..];
        ghost var now := d.(shadow := shadow, row := row, marks := marks, signal := Proceed);
        shadow, marks, signal := PersistOne(o, node, us[i], shadow, marks, now);
        assert now.(shadow := shadow, row := row, marks := marks, signal := signal) == ResearchRun.PersistOne(now, o, node, us[i]);
        if signal != Proceed { return; }
      }
    }

    /** The streamed research graph: engine state and driver's copy side by side. */
    method Research(deps: N.Deps, o: Oracle, owner: UserId)
      returns (state: AgentState, shadow: AgentState, marks: nat, signal: Signal, ghost visits: seq<Node>, ghost states: seq<AgentState>)
      modifies this`row
      ensures Drive(state, shadow, row, marks, visits, states, signal)
        == ResearchRun.Research(deps, o, 0, Node.Plan, StartDrive(owner, old(row)))
    {
      state, shadow, marks, signal := InitialState(owner), InitialState(owner), 0, Proceed;
      visits, states := [], [state];
      var node, k := Node.Plan, 0;
      while Stage(node) > 0
        invariant OnTrack(deps, node, state) && signal == Proceed
        invariant ResearchRun.Research(deps, o, k, node, Drive(state, shadow, row, marks, visits, states, signal))
          == ResearchRun.Research(deps, o, 0, Node.Plan, StartDrive(owner, old(row)))
        decreases Stage(node), Retries(deps, node, state), if node == Search || node == Structure then 1 else 0
      {
        ghost var d := Drive(state, shadow, row, marks, visits, states, signal);
        VisitAdvances(deps, o, k, node, d);
        StaysOnTrack(deps, node, state, o.answer(k));
        visits := visits + [node];
        if o.visit(k) != Fine {
          signal := Strike(o.visit(k));
          return;
        }
        var us := Visit(deps, node, state, o.answer(k));
        state := ReduceAll(state, us);
        states := states + [state];
        shadow, marks, signal := Persist(o, node, us, shadow, marks, Drive(state, shadow, row, marks, visits, states, Proceed));
        assert Drive(state, shadow, row, marks, visits, states, signal) == VisitOnce(deps, o, k, node, d);
        if signal != Proceed { return; }
        node, k := Next(deps, node, state), k + 1;
      }
    }

    method CommitInGraph(o: Oracle, c: CommitOracle, text: Text, engine: AgentState, before: AgentState, count: nat, ghost d: Drive)
      returns (shadow: AgentState, signal: Signal)
      requires Inv(store.View())
      requires d.state == engine && d.shadow == before && d.marks == count && d.signal == Proceed && row == Runs.Stored(d.row, View())
      modifies this, store
      ensures
        var (d', w') := Runs.CommitInGraph(d, o, c, text, old(View()));
        shadow == d'.shadow && signal == d'.signal && View() == w' && row == Runs.Stored(d'.row, w')
    {
      shadow := before;
      var u, marks;
      u, signal := CommitNode(c, text, engine);
      if signal != Proceed { return; }
      var state := Reduce(engine, u);
      shadow, marks, signal := PersistOne(o, Node.Commit, u, shadow, count, d.(state := state));
      if signal != Proceed { return; }
      ghost var d1 := Runs.Streamed(d, o, Node.Commit, u);
      u, signal := EnrichNode(c, text, state);
      if signal != Proceed { return; }
      shadow, marks, signal := PersistOne(o, Node.Enrich, u, shadow, marks, d1.(state := Reduce(state, u)));
    }

    method Conclude(s: AgentState, signal: Signal, last: Fault)
      modifies this`row
      ensures row == Runs.Conclude(s, old(row), old(View()), signal, last)
    {
      if Applied(last) {
        match signal {
          case Proceed => row := MarkSucceeded(row, Summarise(s), s.committedEntities, s.committedRelationships);
          case Raised => row := MarkFailed(row, NodeRaised, s.committedEntities, s.committedRelationships);
          case TimedOut => row := MarkFailed(row, DeadlineExceeded, s.committedEntities, s.committedRelationships);
          case Dead =>
        }
      }
    }

    method RunAgent(deps: N.Deps, o: Oracle, c: CommitOracle, e: Runs.Ends, owner: UserId, review: bool)
      requires Inv(store.View())
      modifies this, store
      ensures review ==>
        row == Runs.RunReviewed(deps, o, e, owner, old(row), old(View()))
        && store.View() == old(store.View()) && writes == old(writes)
      ensures !review ==>
        var out := Runs.RunDirect(deps, o, c, e, owner, old(row), old(View()));
        row == out.row && store.View() == out.world.graph && writes == out.world.writes
    {
      ghost var w := View();
      ghost var first := row;
      if Applied(e.first) {
        row := MarkRunning(row);
      }
      if e.first != Fine { return; }
      var state, shadow, marks, signal, visits, states := Research(deps, o, owner);
      ghost var d := Runs.ResearchOf(deps, o, owner, first);
      Runs.R.ResearchCommitsNothing(deps, o, 0, Node.Plan, StartDrive(owner, MarkRunning(first)), owner);
      if signal != Proceed {
        Conclude(shadow, signal, e.last);
        return;
      }
      if review {
        Park(shadow, e.last);
      } else {
        CommitAndConclude(o, c, deps.text, state, shadow, marks, e.last, d);
      }
    }

    method Park(s: AgentState, last: Fault)
      modifies this`row
      ensures row == if Applied(last) then MarkAwaitingReview(old(row), DraftsOf(s), Summarise(s), Urls(s.documents))
                     else old(row)
    {
      if Applied(last) {
        row := MarkAwaitingReview(row, DraftsOf(s), Summarise(s), Urls(s.documents));
      }
    }

    method CommitAndConclude(
      o: Oracle, c: CommitOracle, text: Text, engine: AgentState, before: AgentState, count: nat, last: Fault, ghost d: Drive)
      requires Inv(store.View())
      requires d.state == engine && d.shadow == before && d.marks == count && d.signal == Proceed && row == Runs.Stored(d.row, View())
      modifies this, store
      ensures
        var (d', w') := Runs.CommitInGraph(d, o, c, text, old(View()));
        row == Runs.Conclude(d'.shadow, d'.row, w', d'.signal, last) && store.View() == w'.graph && writes == w'.writes
    {
      var shadow, signal := CommitInGraph(o, c, text, engine, before, count, d);
      Conclude(shadow, signal, last);
    }

    method RunCommit(c: CommitOracle, text: Text, e: Runs.Ends, owner: UserId)
      requires Inv(store.View())
      modifies this, store
      ensures
        var out := Runs.RunCommit(c, text, e, owner, old(row), old(View()));
        row == out.row && store.View() == out.world.graph && writes == out.world.writes
    {
      if e.first != Fine { return; }
      var state := Runs.ResumeState(owner, row);
      var u, signal := CommitNode(c, text, state);
      if signal == Proceed {
        state := Overwrite(state, u);
        u, signal := EnrichNode(c, text, state);
        if signal == Proceed {
          state := Overwrite(state, u);
        }
      }
      Conclude(state, signal, e.last);
    }
  }
}
