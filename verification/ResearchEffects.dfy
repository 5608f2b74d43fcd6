/**
  The research phase step by step: where each visit leads, and exactly which fields of the state it
  changes and to what.
 */
module ResearchEffects {
  import opened Wrappers
  import opened KnowledgeGraph
  import opened AgentStates
  import N = ResearchNodes
  import opened AgentRow
  import opened Faults
  import opened ResearchRun
  import opened Sequences
  import R = ResearchLaws

  // ---- Routing ----

  /** The edges of the research graph, on the state that the visit left. */
  predicate Leads(deps: N.Deps, node: Node, s: AgentState, next: Node) {
    match next
    case Survey => node.Plan?
    case Search => node.Survey? || node.Broaden?
    case Broaden => node.Search? && s.hits == [] && s.searchAttempts < deps.searchRetries
    case Fetch => node.Search? && (s.hits != [] || s.searchAttempts >= deps.searchRetries)
    case Analyze => node.Fetch? && s.documents != []
    case Synthesize => node.Analyze? || (node.Fetch? && s.documents == [])
    case Structure => node.Synthesize? || (node.Critique? && s.critique.Some? && s.critiqueAttempts <= deps.critiqueRetries)
    case Critique => node.Structure?
    case Lookup => node.Critique? && (s.critique == None || s.critiqueAttempts > deps.critiqueRetries)
    case _ => false
  }

  /** Visit after visit: each state is what the visit made of the one before, and each next node where that leads. */
  ghost predicate Stepwise(deps: N.Deps, o: Oracle, d: Drive) {
    && |d.states| > 0 && |d.visits| <= |d.states| <= |d.visits| + 1
    && (forall i | 0 <= i < |d.states| - 1 :: d.states[i + 1] == ReduceAll(d.states[i], Visit(deps, d.visits[i], d.states[i], o.answer(i))))
    && forall i | 0 <= i < |d.visits| - 1 :: Leads(deps, d.visits[i], d.states[i + 1], d.visits[i + 1])
  }

  /** On the way: every visit so far has returned, and the next one is where the last one led. */
  ghost predicate UnderWay(deps: N.Deps, o: Oracle, node: Node, d: Drive) {
    && Stepwise(deps, o, d) && |d.states| == |d.visits| + 1 && d.states[|d.visits|] == d.state
    && (d.visits != [] ==> Leads(deps, d.visits[|d.visits| - 1], d.state, node))
  }

  lemma NextLeads(deps: N.Deps, node: Node, s: AgentState)
    requires Stage(node) > 0 && node != Lookup
    ensures Leads(deps, node, s, Next(deps, node, s))
  {
  }

  lemma StepAdded(deps: N.Deps, o: Oracle, node: Node, d: Drive, v: Drive)
    requires UnderWay(deps, o, node, d) && v.visits == d.visits + [node]
    requires v.states == d.states || v.states == d.states + [ReduceAll(d.state, Visit(deps, node, d.state, o.answer(|d.visits|)))]
    ensures Stepwise(deps, o, v)
  {
    var k := |d.visits|;
    forall i | 0 <= i < |v.visits| - 1 ensures Leads(deps, v.visits[i], v.states[i + 1], v.visits[i + 1]) {
      if i == k - 1 { assert v.states[k] == d.state; }
    }
    forall i | 0 <= i < |v.states| - 1
      ensures v.states[i + 1] == ReduceAll(v.states[i], Visit(deps, v.visits[i], v.states[i], o.answer(i)))
    {
      if i < k { assert v.visits[i] == d.visits[i] && v.states[i] == d.states[i] && v.states[i + 1] == d.states[i + 1]; }
    }
  }

  lemma VisitIsStep(deps: N.Deps, o: Oracle, node: Node, d: Drive)
    requires UnderWay(deps, o, node, d) && Stage(node) > 0
    ensures
      var v := VisitOnce(deps, o, |d.visits|, node, d);
      && Stepwise(deps, o, v) && v.visits == d.visits + [node]
      && (v.signal == Proceed && node != Lookup ==> UnderWay(deps, o, Next(deps, node, v.state), v))
  {
    VisitAdvances(deps, o, |d.visits|, node, d);
    var v := VisitOnce(deps, o, |d.visits|, node, d);
    StepAdded(deps, o, node, d, v);
    if node != Lookup { NextLeads(deps, node, v.state); }
  }

  lemma {:induction false} ResearchIsSteps(deps: N.Deps, o: Oracle, k: nat, node: Node, d: Drive)
    requires OnTrack(deps, node, d.state) && Stage(node) > 0 && UnderWay(deps, o, node, d) && d.signal == Proceed && k == |d.visits|
    ensures Stepwise(deps, o, Research(deps, o, k, node, d))
    decreases Stage(node), Retries(deps, node, d.state), if node == Search || node == Structure then 1 else 0
  {
    var v := VisitOnce(deps, o, k, node, d);
    VisitAdvances(deps, o, k, node, d);
    VisitIsStep(deps, o, node, d);
    if v.signal == Proceed {
      StaysOnTrack(deps, node, d.state, o.answer(k));
      R.OnlyLookupEnds(deps, node, v.state);
      if node != Lookup { ResearchIsSteps(deps, o, k + 1, Next(deps, node, v.state), v); }
    }
  }

  /** Every research phase starts with a plan and takes, at every visit, exactly the branch that the state it just made calls for. */
  lemma RunIsRouted(deps: N.Deps, o: Oracle, owner: UserId, row: Row)
    ensures
      var r := Research(deps, o, 0, Node.Plan, StartDrive(owner, row));
      && r.visits != [] && r.visits[0] == Node.Plan && Stepwise(deps, o, r)
      && r.states[0] == AgentState(owner, None, None, [], 0, [], [], None, None, None, 0, [], [], [], [])
  {
    var start := StartDrive(owner, row);
    ResearchIsSteps(deps, o, 0, Node.Plan, start);
    ResearchStates(deps, o, 0, Node.Plan, start);
    VisitAdvances(deps, o, 0, Node.Plan, start);
    FirstVisit(deps, o, 0, Node.Plan, start);
  }

  lemma FirstVisit(deps: N.Deps, o: Oracle, k: nat, node: Node, d: Drive)
    requires OnTrack(deps, node, d.state) && Stage(node) > 0 && d.signal == Proceed
    ensures VisitOnce(deps, o, k, node, d).visits <= Research(deps, o, k, node, d).visits
  {
    var v := VisitOnce(deps, o, k, node, d);
    VisitAdvances(deps, o, k, node, d);
    if v.signal == Proceed {
      StaysOnTrack(deps, node, d.state, o.answer(k));
      ResearchStates(deps, o, k + 1, Next(deps, node, v.state), v);
    }
  }

  lemma {:induction false} ResearchStates(deps: N.Deps, o: Oracle, k: nat, node: Node, d: Drive)
    requires OnTrack(deps, node, d.state)
    ensures d.states <= Research(deps, o, k, node, d).states && d.visits <= Research(deps, o, k, node, d).visits
    decreases Stage(node), Retries(deps, node, d.state), if node == Search || node == Structure then 1 else 0
  {
    if Stage(node) > 0 && d.signal == Proceed {
      var v := VisitOnce(deps, o, k, node, d);
      VisitAdvances(deps, o, k, node, d);
      if v.signal == Proceed {
        StaysOnTrack(deps, node, d.state, o.answer(k));
        ResearchStates(deps, o, k + 1, Next(deps, node, v.state), v);
      }
    }
  }

  // ---- Search: its notes ----

  function FailedOf(notes: seq<Note>): seq<string> {
    if notes == [] then []
    else
      var last := notes[|notes| - 1];
      FailedOf(notes[..|notes| - 1]) + if last.QueryFailed? then [last.query] else []
  }

  function UnsafeOf(notes: seq<Note>): seq<Url> {
    if notes == [] then []
    else
      var last := notes[|notes| - 1];
      UnsafeOf(notes[..|notes| - 1]) + if last.UnsafeUrl? then [last.url] else []
  }

  lemma NoteAdded(base: seq<Note>, notes: seq<Note>, note: Note)
    requires base <= notes
    ensures base <= notes + [note]
    ensures
      var now, was := (notes + [note])[|base|..], notes[|base|..];
      && FailedOf(now) == (if note.QueryFailed? then FailedOf(was) + [note.query] else FailedOf(was))
      && UnsafeOf(now) == (if note.UnsafeUrl? then UnsafeOf(was) + [note.url] else UnsafeOf(was))
      && |now| == |was| + 1
  {
    assert (notes + [note])[|base|..] == notes[|base|..] + [note];
    assert (notes[|base|..] + [note])[..|notes| - |base|] == notes[|base|..];
  }

  function Distinct(urls: seq<Url>): set<Url> {
    set url | url in urls
  }

  function Failing(queries: seq<string>, a: N.Answer, n: nat): seq<Option<string>>
    requires n <= |queries|
  {
    seq(n, i requires 0 <= i < n => if a.results(i) == None then Some(queries[i]) else None)
  }

  /** After n queries and the urls `read`: a note a failed query, a note an unsafe url once, and no other. */
  ghost predicate Told(base: seq<Note>, queries: seq<string>, n: nat, a: N.Answer, read: set<Url>, limit: nat, s: N.Search)
    requires n <= |queries|
  {
    && base <= s.skipped
    && var notes := s.skipped[|base|..];
      && Picks(FailedOf(notes), Failing(queries, a, n)) && |notes| == |FailedOf(notes)| + |UnsafeOf(notes)|
      && (forall i, j | 0 <= i < j < |UnsafeOf(notes)| :: UnsafeOf(notes)[i] != UnsafeOf(notes)[j])
      && (forall url :: url in UnsafeOf(notes) <==> url in s.seen && !a.safe(url))
      && s.seen <= read && (|s.hits| < limit ==> s.seen == read)
  }

  lemma ConsiderTold(base: seq<Note>, queries: seq<string>, n: nat, a: N.Answer, read: set<Url>, limit: nat, s: N.Search, url: Url)
    requires n <= |queries| && Told(base, queries, n, a, read, limit, s)
    ensures Told(base, queries, n, a, read + {url}, limit, N.Consider(s, url, a.safe, limit))
  {
    if url !in s.seen && |s.hits| < limit && !a.safe(url) { NoteAdded(base, s.skipped, UnsafeUrl(url)); }
  }

  lemma {:induction false} ConsiderAllTold(
    base: seq<Note>, queries: seq<string>, n: nat, a: N.Answer, read: set<Url>, limit: nat, s: N.Search, urls: seq<Url>)
    requires n <= |queries| && Told(base, queries, n, a, read, limit, s)
    ensures Told(base, queries, n, a, read + Distinct(urls), limit, N.ConsiderAll(s, urls, a.safe, limit))
    decreases urls
  {
    if urls == [] {
      assert read + Distinct(urls) == read;
    } else {
      ConsiderTold(base, queries, n, a, read, limit, s, urls[0]);
      ConsiderAllTold(base, queries, n, a, read + {urls[0]}, limit, N.Consider(s, urls[0], a.safe, limit), urls[1..]);
      assert read + {urls[0]} + Distinct(urls[1..]) == read + Distinct(urls);
    }
  }

  /** The urls that the first n queries returned. */
  function Read(a: N.Answer, n: nat): set<Url> {
    if n == 0 then {} else Read(a, n - 1) + if a.results(n - 1).Some? then Distinct(a.results(n - 1).value) else {}
  }

  lemma OneMoreQuery(queries: seq<string>, a: N.Answer, n: nat)
    requires n < |queries|
    ensures Failing(queries, a, n + 1) == Failing(queries, a, n) + [if a.results(n) == None then Some(queries[n]) else None]
  {
  }

  lemma QueryNoted(base: seq<Note>, queries: seq<string>, n: nat, a: N.Answer, notes: seq<Note>)
    requires n < |queries| && base <= notes && Picks(FailedOf(notes[|base|..]), Failing(queries, a, n))
    ensures
      var later := if a.results(n) == None then notes + [QueryFailed(queries[n])] else notes;
      && base <= later && Picks(FailedOf(later[|base|..]), Failing(queries, a, n + 1))
      && UnsafeOf(later[|base|..]) == UnsafeOf(notes[|base|..])
      && |later| - |FailedOf(later[|base|..])| == |notes| - |FailedOf(notes[|base|..])|
  {
    var was := FailedOf(notes[|base|..]);
    OneMoreQuery(queries, a, n);
    PickNext(was, Failing(queries, a, n), if a.results(n) == None then Some(queries[n]) else None);
    if a.results(n) == None { NoteAdded(base, notes, QueryFailed(queries[n])); } else { assert was + [] == was; }
  }

  lemma QueryAsked(base: seq<Note>, queries: seq<string>, n: nat, a: N.Answer, limit: nat, s: N.Search)
    requires n < |queries| && Told(base, queries, n, a, Read(a, n), limit, s)
    ensures Told(base, queries, n + 1, a, Read(a, n), limit,
                 if a.results(n) == None then s.(skipped := s.skipped + [QueryFailed(queries[n])]) else s)
  {
    QueryNoted(base, queries, n, a, s.skipped);
  }

  lemma {:induction false} QueriesTold(base: seq<Note>, queries: seq<string>, n: nat, a: N.Answer, limit: nat, s: N.Search)
    requires n <= |queries| && Told(base, queries, n, a, Read(a, n), limit, s)
    ensures Told(base, queries, |queries|, a, Read(a, |queries|), limit, N.RunQueries(s, queries, n, a, limit))
    decreases |queries| - n
  {
    if n < |queries| {
      QueryAsked(base, queries, n, a, limit, s);
      if a.results(n) == None {
        QueriesTold(base, queries, n + 1, a, limit, s.(skipped := s.skipped + [QueryFailed(queries[n])]));
      } else {
        var urls := a.results(n).value;
        ConsiderAllTold(base, queries, n + 1, a, Read(a, n), limit, s, urls);
        QueriesTold(base, queries, n + 1, a, limit, N.ConsiderAll(s, urls, a.safe, limit));
      }
    }
  }

  // ---- One visit at a time ----

  function Readings(a: N.Answer, n: nat): seq<Option<string>> {
    seq(n, i requires 0 <= i < n => a.reading(i))
  }

  lemma ReadOne(s: AgentState, a: N.Answer, n: nat)
    requires n < |s.documents|
    ensures
      ReduceAll(s, N.AnalyzeUpdates(s, a)[..n + 1]).sourceNotes
        == ReduceAll(s, N.AnalyzeUpdates(s, a)[..n]).sourceNotes + if a.reading(n).Some? then [a.reading(n).value] else []
  {
    var us := N.AnalyzeUpdates(s, a);
    assert us[..n + 1][..n] == us[..n] && us[..n + 1][n] == us[n];
  }

  lemma {:induction false} ReadingsPicked(s: AgentState, a: N.Answer, n: nat) returns (notes: seq<string>)
    requires n <= |s.documents|
    ensures ReduceAll(s, N.AnalyzeUpdates(s, a)[..n]).sourceNotes == s.sourceNotes + notes
    ensures Picks(notes, Readings(a, n))
    decreases n
  {
    notes := [];
    if n > 0 {
      var front := ReadingsPicked(s, a, n - 1);
      notes := front + if a.reading(n - 1).Some? then [a.reading(n - 1).value] else [];
      ReadOne(s, a, n - 1);
      ReadingAdded(s, a, n - 1, front);
    }
  }

  lemma ReadingAdded(s: AgentState, a: N.Answer, n: nat, front: seq<string>)
    requires Picks(front, Readings(a, n))
    ensures
      var last := if a.reading(n).Some? then [a.reading(n).value] else [];
      s.sourceNotes + front + last == s.sourceNotes + (front + last) && Picks(front + last, Readings(a, n + 1))
  {
    PickNext(front, Readings(a, n), a.reading(n));
    assert Readings(a, n + 1) == Readings(a, n) + [a.reading(n)];
    Associative(s.sourceNotes, front, if a.reading(n).Some? then [a.reading(n).value] else []);
  }

  function Pages(hits: seq<Url>, a: N.Answer, n: nat): seq<Option<Document>>
    requires n <= |hits|
  {
    seq(n, i requires 0 <= i < n => if a.page(i).Some? then Some(Document(hits[i], a.page(i).value)) else None)
  }

  function Missed(hits: seq<Url>, a: N.Answer, n: nat): seq<Option<Note>>
    requires n <= |hits|
  {
    seq(n, i requires 0 <= i < n => if a.page(i) == None then Some(FetchFailed(hits[i])) else None)
  }

  lemma OneMorePage(hits: seq<Url>, a: N.Answer, n: nat)
    requires n < |hits|
    ensures Pages(hits, a, n + 1)
      == Pages(hits, a, n) + [if a.page(n).Some? then Some(Document(hits[n], a.page(n).value)) else None]
    ensures Missed(hits, a, n + 1) == Missed(hits, a, n) + [if a.page(n) == None then Some(FetchFailed(hits[n])) else None]
  {
  }

  lemma FetchedOne(hits: seq<Url>, a: N.Answer, n: nat, docs: seq<Document>, notes: seq<Note>)
    requires n < |hits| && Picks(docs, Pages(hits, a, n)) && Picks(notes, Missed(hits, a, n))
    ensures Picks(docs + (if a.page(n).Some? then [Document(hits[n], a.page(n).value)] else []), Pages(hits, a, n + 1))
    ensures Picks(notes + (if a.page(n) == None then [FetchFailed(hits[n])] else []), Missed(hits, a, n + 1))
  {
    OneMorePage(hits, a, n);
    PickNext(docs, Pages(hits, a, n), if a.page(n).Some? then Some(Document(hits[n], a.page(n).value)) else None);
    PickNext(notes, Missed(hits, a, n), if a.page(n) == None then Some(FetchFailed(hits[n])) else None);
  }

  lemma {:induction false} FetchedPicked(hits: seq<Url>, a: N.Answer, n: nat)
    requires n <= |hits|
    ensures Picks(N.Fetched(hits, n, a).0, Pages(hits, a, n)) && Picks(N.Fetched(hits, n, a).1, Missed(hits, a, n))
    decreases n
  {
    if n > 0 {
      var (docs, notes) := N.Fetched(hits, n - 1, a);
      FetchedPicked(hits, a, n - 1);
      FetchedOne(hits, a, n - 1, docs, notes);
      assert docs + [] == docs && notes + [] == notes;
    }
  }

  lemma PlanVisit(deps: N.Deps, s: AgentState, a: N.Answer)
    ensures ReduceAll(s, Visit(deps, Node.Plan, s, a)) == s.(plan := Some(a.plan))
    ensures ReduceAll(s, Visit(deps, Survey, s, a)) == s.(existing := Some(a.survey.0), skipped := s.skipped + a.survey.1)
  {
    AfterVisit(deps, Node.Plan, s, a);
    AfterVisit(deps, Survey, s, a);
  }

  lemma BroadenVisit(deps: N.Deps, s: AgentState, a: N.Answer)
    ensures
      var r, n := ReduceAll(s, Visit(deps, Broaden, s, a)), s.searchAttempts + 1;
      && (a.broadened == None ==> r == s.(searchAttempts := n, skipped := s.skipped + [CouldNotBroaden(n)]))
      && (a.broadened.Some? ==>
            && r == s.(plan := r.plan, searchAttempts := n, skipped := s.skipped + [Broadened(n)])
            && r.plan.Some? && r.plan.value.queries == a.broadened.value.queries
            && r.plan.value.summary == (if s.plan.Some? then s.plan.value.summary else a.broadened.value.summary))
  {
    ReduceSingle(s, N.BroadenUpdate(s, a));
  }

  lemma SynthesizeVisit(deps: N.Deps, s: AgentState, a: N.Answer)
    ensures ReduceAll(s, Visit(deps, Synthesize, s, a))
      == s.(analysis := Some(if s.sourceNotes == [] then "(no sources were analysed)" else a.synthesis))
  {
    AfterVisit(deps, Synthesize, s, a);
  }

  lemma CritiqueVisit(deps: N.Deps, s: AgentState, a: N.Answer)
    ensures
      var r, n := ReduceAll(s, Visit(deps, Critique, s, a)), s.critiqueAttempts + 1;
      var nothing := s.structured == None || s.structured.value.entities == [];
      r == if nothing || a.verdict == N.Verdict.Fine then s.(critique := None, critiqueAttempts := n)
           else s.(critique := Some(a.verdict.notes), critiqueAttempts := n, skipped := s.skipped + [Criticised(n, a.verdict.notes)])
  {
    ReduceSingle(s, N.CritiqueUpdate(s, a));
  }

  /** search: the hits of SearchHits, and its notes; without a plan or a tool, nothing is searched. */
  lemma SearchVisit(deps: N.Deps, s: AgentState, a: N.Answer)
    ensures
      var r := ReduceAll(s, Visit(deps, Search, s, a));
      if s.plan == None then r == s.(hits := [])
      else if !deps.searchTool then
        r == s.(hits := [], searchAttempts := deps.searchRetries, skipped := s.skipped + [SearchUnavailable])
      else
        var queries := s.plan.value.queries;
        && r == s.(hits := r.hits, skipped := r.skipped) && r.hits == N.SearchUpdate(deps, s, a).hits.value
        && s.skipped <= r.skipped
        && var notes := r.skipped[|s.skipped|..];
          && Picks(FailedOf(notes), Failing(queries, a, |queries|)) && |notes| == |FailedOf(notes)| + |UnsafeOf(notes)|
          && (forall i, j | 0 <= i < j < |UnsafeOf(notes)| :: UnsafeOf(notes)[i] != UnsafeOf(notes)[j])
          && (forall url | url in UnsafeOf(notes) :: url in Read(a, |queries|) && !a.safe(url))
          && (|r.hits| < deps.maxSources ==> forall url | url in Read(a, |queries|) && !a.safe(url) :: url in UnsafeOf(notes))
  {
    ReduceSingle(s, N.SearchUpdate(deps, s, a));
    if s.plan.Some? && deps.searchTool {
      assert s.skipped[|s.skipped|..] == [];
      QueriesTold(s.skipped, s.plan.value.queries, 0, a, deps.maxSources, N.Search({}, [], s.skipped));
    }
  }

  /** fetch: the pages that came, in the order of the hits, and a note for every other. */
  lemma FetchVisit(deps: N.Deps, s: AgentState, a: N.Answer) returns (documents: seq<Document>, notes: seq<Note>)
    ensures ReduceAll(s, Visit(deps, Fetch, s, a)) == s.(documents := documents, skipped := s.skipped + notes)
    ensures Picks(documents, Pages(s.hits, a, |s.hits|)) && Picks(notes, Missed(s.hits, a, |s.hits|))
  {
    documents, notes := N.Fetched(s.hits, |s.hits|, a).0, N.Fetched(s.hits, |s.hits|, a).1;
    FetchState(deps, s, a);
    FetchedPicked(s.hits, a, |s.hits|);
  }

  lemma FetchState(deps: N.Deps, s: AgentState, a: N.Answer)
    ensures
      var (documents, notes) := N.Fetched(s.hits, |s.hits|, a);
      ReduceAll(s, Visit(deps, Fetch, s, a)) == s.(documents := documents, skipped := s.skipped + notes)
  {
    AfterVisit(deps, Fetch, s, a);
  }

  /** analyze: whatever was read out of each document, added in the order of the documents. */
  lemma AnalyzeVisit(deps: N.Deps, s: AgentState, a: N.Answer) returns (notes: seq<string>)
    ensures ReduceAll(s, Visit(deps, Analyze, s, a)) == s.(sourceNotes := s.sourceNotes + notes)
    ensures Picks(notes, Readings(a, |s.documents|))
  {
    notes := ReadingsPicked(s, a, |s.documents|);
    AllUpdates(s, a);
    AnalyzeState(deps, s, a, notes);
  }

  lemma AllUpdates(s: AgentState, a: N.Answer)
    ensures N.AnalyzeUpdates(s, a)[..|s.documents|] == N.AnalyzeUpdates(s, a)
  {
  }

  lemma AnalyzeState(deps: N.Deps, s: AgentState, a: N.Answer, notes: seq<string>)
    requires ReduceAll(s, Visit(deps, Analyze, s, a)).sourceNotes == s.sourceNotes + notes
    ensures ReduceAll(s, Visit(deps, Analyze, s, a)) == s.(sourceNotes := s.sourceNotes + notes)
  {
    AfterVisit(deps, Analyze, s, a);
  }

  // ---- structure ----

  predicate SameThing(text: Text, e: DigestEntity, d: DraftEntity) {
    text.lower(e.name) == text.lower(d.name) && text.lower(e.kind) == text.lower(d.kind)
  }

  /** A draft with an id keeps it; any other takes that of the last surveyed entity of its name and kind, if there is one. */
  ghost predicate Linked(text: Text, surveyed: seq<DigestEntity>, raw: DraftEntity, draft: DraftEntity) {
    && draft == raw.(existingId := draft.existingId)
    && if raw.existingId.Some? then draft == raw
       else match draft.existingId
       case None => forall e | e in surveyed :: !SameThing(text, e, raw)
       case Some(id) =>
         exists i | 0 <= i < |surveyed| :: surveyed[i].id == id && SameThing(text, surveyed[i], raw)
           && forall j | i < j < |surveyed| :: !SameThing(text, surveyed[j], raw)
  }

  lemma DedupeLinks(text: Text, d: Drafts, existing: Option<seq<DigestEntity>>, i: nat)
    requires i < |d.entities|
    ensures
      var r := N.Dedupe(text, d, existing);
      && r.relationships == d.relationships && |r.entities| == |d.entities|
      && Linked(text, Or(existing, []), d.entities[i], r.entities[i])
  {
    N.DedupeExact(text, d, Or(existing, []), i);
    var r, raw := N.Dedupe(text, d, existing), d.entities[i];
    if existing.Some? && existing.value != [] && raw.existingId == None && r.entities[i].existingId.Some? {
      var surveyed, key := existing.value, N.Key(text, raw.name, raw.kind);
      var j :| 0 <= j < |surveyed| && surveyed[j].id == r.entities[i].existingId.value
        && N.Key(text, surveyed[j].name, surveyed[j].kind) == key
        && forall k | j < k < |surveyed| :: N.Key(text, surveyed[k].name, surveyed[k].kind) != key;
      assert SameThing(text, surveyed[j], raw);
    }
  }

  /** It names a draft, or it reads as an id. */
  ghost predicate Names(text: Text, drafts: seq<DraftEntity>, ref: string) {
    (exists e | e in drafts :: e.tempId == ref) || text.parse(ref).Some?
  }

  ghost function Resolving(text: Text, drafts: seq<DraftEntity>, edges: seq<DraftRelationship>): seq<Option<DraftRelationship>> {
    seq(|edges|, i requires 0 <= i < |edges| =>
      if Names(text, drafts, edges[i].fromRef) && Names(text, drafts, edges[i].toRef) then Some(edges[i]) else None)
  }

  lemma KnownNames(text: Text, drafts: seq<DraftEntity>, ref: string)
    requires ReadsBack(text)
    ensures N.RefOk(text, N.Known(text, drafts), ref) <==> Names(text, drafts, ref)
  {
  }

  lemma OneMoreEdge(text: Text, drafts: seq<DraftEntity>, edges: seq<DraftRelationship>)
    requires edges != []
    ensures
      var n := |edges| - 1;
      var keep := Names(text, drafts, edges[n].fromRef) && Names(text, drafts, edges[n].toRef);
      Resolving(text, drafts, edges) == Resolving(text, drafts, edges[..n]) + [if keep then Some(edges[n]) else None]
  {
  }

  lemma {:induction false} KeepPicked(text: Text, drafts: seq<DraftEntity>, edges: seq<DraftRelationship>)
    requires ReadsBack(text)
    ensures Picks(N.Keep(text, N.Known(text, drafts), edges), Resolving(text, drafts, edges))
  {
    if edges != [] {
      var n := |edges| - 1;
      var keep := Names(text, drafts, edges[n].fromRef) && Names(text, drafts, edges[n].toRef);
      KeepPicked(text, drafts, edges[..n]);
      KnownNames(text, drafts, edges[n].fromRef);
      KnownNames(text, drafts, edges[n].toRef);
      OneMoreEdge(text, drafts, edges);
      PickNext(N.Keep(text, N.Known(text, drafts), edges[..n]), Resolving(text, drafts, edges[..n]), if keep then Some(edges[n]) else None);
    }
  }

  lemma {:induction false} NamesStay(text: Text, raw: seq<DraftEntity>, drafts: seq<DraftEntity>, ref: string)
    requires |raw| == |drafts| && forall i | 0 <= i < |raw| :: raw[i].tempId == drafts[i].tempId
    ensures Names(text, raw, ref) <==> Names(text, drafts, ref)
  {
    if e :| e in raw && e.tempId == ref { var i :| 0 <= i < |raw| && raw[i] == e; assert drafts[i] in drafts; }
    if e :| e in drafts && e.tempId == ref { var i :| 0 <= i < |drafts| && drafts[i] == e; assert raw[i] in raw; }
  }

  lemma StructuredDrafts(text: Text, raw: Drafts, existing: Option<seq<DigestEntity>>)
    requires ReadsBack(text)
    ensures
      var d := N.Prune(text, N.Dedupe(text, raw, existing));
      && N.Dedupe(text, raw, existing).relationships == raw.relationships
      && |d.entities| == |raw.entities| && |d.relationships| <= |raw.relationships|
      && (forall i | 0 <= i < |raw.entities| :: Linked(text, Or(existing, []), raw.entities[i], d.entities[i]))
      && Picks(d.relationships, Resolving(text, raw.entities, raw.relationships))
  {
    var deduped := N.Dedupe(text, raw, existing);
    forall i | 0 <= i < |raw.entities|
      ensures |deduped.entities| == |raw.entities| && deduped.relationships == raw.relationships
        && Linked(text, Or(existing, []), raw.entities[i], deduped.entities[i])
    {
      DedupeLinks(text, raw, existing, i);
    }
    N.KeepShorter(text, N.Known(text, deduped.entities), raw.relationships);
    KeepPicked(text, deduped.entities, raw.relationships);
    SameResolving(text, raw.entities, deduped.entities, raw.relationships);
  }

  lemma StructureIs(deps: N.Deps, s: AgentState, a: N.Answer)
    requires a.drafts.Some?
    ensures
      var before := N.Dedupe(deps.text, a.drafts.value, s.existing);
      var after := N.Prune(deps.text, before);
      var dropped := |before.relationships| - |after.relationships|;
      N.StructureUpdate(deps, s, a) == NO_UPDATE.(
        structured := Some(after), skipped := Some(if dropped > 0 then s.skipped + [DroppedEdges(dropped)] else s.skipped))
  {
    assert s.skipped + [] == s.skipped;
  }

  lemma StructureState(deps: N.Deps, s: AgentState, a: N.Answer, d: Drafts, notes: seq<Note>)
    requires N.StructureUpdate(deps, s, a) == NO_UPDATE.(structured := Some(d), skipped := Some(notes))
    ensures ReduceAll(s, Visit(deps, Structure, s, a)) == s.(structured := Some(d), skipped := notes)
  {
    ReduceSingle(s, N.StructureUpdate(deps, s, a));
    assert s.sourceNotes + [] == s.sourceNotes;
  }

  /**
    structure: the model's drafts, each linked to what the survey has of it, with exactly those of their
    edges that name drafts or ids, in their order; and one note with the number dropped, if there are any.
   */
  lemma StructureVisit(deps: N.Deps, s: AgentState, a: N.Answer) returns (d: Drafts)
    requires ReadsBack(deps.text)
    ensures
      var r := ReduceAll(s, Visit(deps, Structure, s, a));
      if a.drafts == None then r == s.(structured := Some(Drafts([], [])), skipped := s.skipped + [StructureFailed])
      else
        var raw := a.drafts.value;
        var dropped := |raw.relationships| - |d.relationships|;
        && |d.entities| == |raw.entities|
        && (forall i | 0 <= i < |raw.entities| ::
              Linked(deps.text, if s.existing.Some? then s.existing.value else [], raw.entities[i], d.entities[i]))
        && Picks(d.relationships, Resolving(deps.text, raw.entities, raw.relationships)) && dropped >= 0
        && r == s.(structured := Some(d), skipped := if dropped > 0 then s.skipped + [DroppedEdges(dropped)] else s.skipped)
  {
    d := Drafts([], []);
    if a.drafts == None {
      ReduceSingle(s, N.StructureUpdate(deps, s, a));
    } else {
      d := N.Prune(deps.text, N.Dedupe(deps.text, a.drafts.value, s.existing));
      StructuredDrafts(deps.text, a.drafts.value, s.existing);
      StructureIs(deps, s, a);
      var dropped := |a.drafts.value.relationships| - |d.relationships|;
      StructureState(deps, s, a, d, if dropped > 0 then s.skipped + [DroppedEdges(dropped)] else s.skipped);
    }
  }

  lemma SameResolving(text: Text, raw: seq<DraftEntity>, drafts: seq<DraftEntity>, edges: seq<DraftRelationship>)
    requires |raw| == |drafts| && forall i | 0 <= i < |raw| :: raw[i].tempId == drafts[i].tempId
    ensures Resolving(text, raw, edges) == Resolving(text, drafts, edges)
  {
    forall ref ensures Names(text, raw, ref) <==> Names(text, drafts, ref) { NamesStay(text, raw, drafts, ref); }
  }

  // ---- lookup ----

  /** The last draft of that name. */
  ghost predicate LastNamed(text: Text, drafts: seq<DraftEntity>, name: string, tempId: string) {
    exists i | 0 <= i < |drafts| :: drafts[i].tempId == tempId && text.lower(drafts[i].name) == text.lower(name)
      && forall j | i < j < |drafts| :: text.lower(drafts[j].name) != text.lower(name)
  }

  lemma LastNamedAdds(text: Text, drafts: seq<DraftEntity>, name: string, tempId: string)
    requires drafts != []
    ensures
      var n := |drafts| - 1;
      LastNamed(text, drafts, name, tempId) <==>
        if text.lower(drafts[n].name) == text.lower(name) then drafts[n].tempId == tempId
        else LastNamed(text, drafts[..n], name, tempId)
  {
    var n := |drafts| - 1;
    var front := drafts[..n];
    if LastNamed(text, front, name, tempId) && text.lower(drafts[n].name) != text.lower(name) {
      var i :| 0 <= i < n && front[i].tempId == tempId && text.lower(front[i].name) == text.lower(name)
        && forall j | i < j < n :: text.lower(front[j].name) != text.lower(name);
      forall j | i < j < |drafts| ensures text.lower(drafts[j].name) != text.lower(name) {
        if j < n { assert drafts[j] == front[j]; }
      }
      assert drafts[i] == front[i];
    }
  }

  lemma {:induction false} ByNameIsLast(text: Text, drafts: seq<DraftEntity>, name: string, tempId: string)
    ensures
      var m, key := N.ByName(text, drafts), text.lower(name);
      (key in m && m[key] == tempId) <==> LastNamed(text, drafts, name, tempId)
  {
    if drafts != [] {
      ByNameIsLast(text, drafts[..|drafts| - 1], name, tempId);
      LastNamedAdds(text, drafts, name, tempId);
    }
  }

  /** From a draft to the last draft of a name that its article relates it to, unless that is the draft itself. */
  ghost predicate Relates(text: Text, drafts: seq<DraftEntity>, from: string, related: seq<string>, edge: DraftRelationship) {
    && edge.fromRef == from && edge.kind == "related_to" && edge.toRef != from
    && exists name | name in related :: LastNamed(text, drafts, name, edge.toRef)
  }

  lemma {:induction false} RelatedExactly(
    text: Text, drafts: seq<DraftEntity>, from: string, related: seq<string>, edge: DraftRelationship)
    ensures edge in N.RelatedEdges(text, N.ByName(text, drafts), from, related) <==> Relates(text, drafts, from, related, edge)
  {
    if related != [] {
      var n := |related| - 1;
      assert related == related[..n] + [related[n]];
      RelatedExactly(text, drafts, from, related[..n], edge);
      ByNameIsLast(text, drafts, related[n], edge.toRef);
    }
  }

  /** The draft with the first six hundred characters of its article's summary, or as it was. */
  predicate Enriched(draft: DraftEntity, article: Option<N.Article>, out: DraftEntity) {
    if article == None || article.value.summary == "" then out == draft
    else
      var summary := article.value.summary;
      out == draft.(attributes := draft.attributes["wikipedia_summary" := if |summary| > 600 then summary[..600] else summary])
  }

  function Failures(drafts: seq<DraftEntity>, a: N.Answer, n: nat): seq<Option<Note>>
    requires n <= |drafts|
  {
    seq(n, i requires 0 <= i < n => if a.article(i) == None then Some(LookupFailed(drafts[i].name)) else None)
  }

  ghost predicate RelatedByFirst(
    text: Text, all: seq<DraftEntity>, drafts: seq<DraftEntity>, a: N.Answer, n: nat, edge: DraftRelationship)
    requires n <= |drafts|
  {
    exists i | 0 <= i < n :: a.article(i).Some? && Relates(text, all, drafts[i].tempId, a.article(i).value.related, edge)
  }

  /** After n articles. */
  ghost predicate LookedUp(
    text: Text, all: seq<DraftEntity>, base: seq<Note>, drafts: seq<DraftEntity>, n: nat, a: N.Answer, l: N.Lookup)
    requires n <= |drafts|
  {
    && |l.entities| == n && (forall i | 0 <= i < n :: Enriched(drafts[i], a.article(i), l.entities[i]))
    && base <= l.skipped && Picks(l.skipped[|base|..], Failures(drafts, a, n))
    && forall edge :: edge in l.extra <==> RelatedByFirst(text, all, drafts, a, n, edge)
  }

  lemma OneMoreFailure(drafts: seq<DraftEntity>, a: N.Answer, n: nat)
    requires n < |drafts|
    ensures Failures(drafts, a, n + 1)
      == Failures(drafts, a, n) + [if a.article(n) == None then Some(LookupFailed(drafts[n].name)) else None]
  {
  }

  lemma OneMoreRelated(
    text: Text, all: seq<DraftEntity>, drafts: seq<DraftEntity>, a: N.Answer, n: nat, edge: DraftRelationship)
    requires n < |drafts|
    ensures RelatedByFirst(text, all, drafts, a, n + 1, edge) <==>
      RelatedByFirst(text, all, drafts, a, n, edge)
      || (a.article(n).Some? && Relates(text, all, drafts[n].tempId, a.article(n).value.related, edge))
  {
  }

  lemma NotesLookedUp(base: seq<Note>, drafts: seq<DraftEntity>, n: nat, a: N.Answer, l: N.Lookup, next: N.Lookup)
    requires n < |drafts| && base <= l.skipped && Picks(l.skipped[|base|..], Failures(drafts, a, n))
    requires next.skipped == l.skipped + if a.article(n) == None then [LookupFailed(drafts[n].name)] else []
    ensures base <= next.skipped && Picks(next.skipped[|base|..], Failures(drafts, a, n + 1))
  {
    var note := if a.article(n) == None then Some(LookupFailed(drafts[n].name)) else None;
    OneMoreFailure(drafts, a, n);
    PickNext(l.skipped[|base|..], Failures(drafts, a, n), note);
    assert next.skipped[|base|..] == l.skipped[|base|..] + if note.Some? then [note.value] else [];
  }

  lemma LookUpOneMore(
    text: Text, all: seq<DraftEntity>, base: seq<Note>, drafts: seq<DraftEntity>, n: nat, a: N.Answer, l: N.Lookup)
    requires n < |drafts| && LookedUp(text, all, base, drafts, n, a, l)
    ensures LookedUp(text, all, base, drafts, n + 1, a, N.LookUpOne(text, N.ByName(text, all), l, drafts[n], a.article(n)))
  {
    var next := N.LookUpOne(text, N.ByName(text, all), l, drafts[n], a.article(n));
    NotesLookedUp(base, drafts, n, a, l, next);
    forall edge ensures edge in next.extra <==> RelatedByFirst(text, all, drafts, a, n + 1, edge) {
      RelatedOneMore(text, all, drafts, n, a, l, edge);
    }
  }

  lemma RelatedOneMore(
    text: Text, all: seq<DraftEntity>, drafts: seq<DraftEntity>, n: nat, a: N.Answer, l: N.Lookup, edge: DraftRelationship)
    requires n < |drafts| && (edge in l.extra <==> RelatedByFirst(text, all, drafts, a, n, edge))
    ensures
      var next := N.LookUpOne(text, N.ByName(text, all), l, drafts[n], a.article(n));
      edge in next.extra <==> RelatedByFirst(text, all, drafts, a, n + 1, edge)
  {
    OneMoreRelated(text, all, drafts, a, n, edge);
    if a.article(n).Some? { RelatedExactly(text, all, drafts[n].tempId, a.article(n).value.related, edge); }
  }

  lemma {:induction false} LookUpAll(
    text: Text, all: seq<DraftEntity>, base: seq<Note>, drafts: seq<DraftEntity>, n: nat, a: N.Answer, l: N.Lookup)
    requires n <= |drafts| && LookedUp(text, all, base, drafts, n, a, l)
    ensures LookedUp(text, all, base, drafts, |drafts|, a, N.LookUp(text, N.ByName(text, all), l, drafts, n, a))
    decreases |drafts| - n
  {
    if n < |drafts| {
      LookUpOneMore(text, all, base, drafts, n, a, l);
      LookUpAll(text, all, base, drafts, n + 1, a, N.LookUpOne(text, N.ByName(text, all), l, drafts[n], a.article(n)));
    }
  }

  lemma {:induction false} NotSeenExactly(edges: seq<DraftRelationship>, seen: seq<DraftRelationship>, edge: DraftRelationship)
    ensures edge in N.NotSeen(edges, seen) <==> edge in edges && edge !in seen
  {
    if edges != [] {
      assert edges == edges[..|edges| - 1] + [edges[|edges| - 1]];
      NotSeenExactly(edges[..|edges| - 1], seen, edge);
    }
  }

  /** What a lookup of the first drafts leaves: their summaries, a note a failure, and every relation found that was not there. */
  ghost predicate LookupDone(deps: N.Deps, d: Drafts, before: seq<Note>, a: N.Answer, after: Drafts, notes: seq<Note>) {
    var n := if |d.entities| <= deps.lookupCap then |d.entities| else deps.lookupCap;
    var base := before + if n < |d.entities| then [LookupCapped(n, |d.entities|)] else [];
    && |after.entities| == |d.entities|
    && (forall i | 0 <= i < n :: Enriched(d.entities[i], a.article(i), after.entities[i]))
    && (forall i | n <= i < |d.entities| :: after.entities[i] == d.entities[i])
    && base <= notes && Picks(notes[|base|..], Failures(d.entities, a, n))
    && d.relationships <= after.relationships
    && forall edge ::
         edge in after.relationships[|d.relationships|..] <==>
         edge !in d.relationships && RelatedByFirst(deps.text, d.entities, d.entities, a, n, edge)
  }

  /** lookup, in full; without drafts it changes nothing, and without the wiki it only says so. */
  lemma LookupVisit(deps: N.Deps, s: AgentState, a: N.Answer)
    ensures
      var r := ReduceAll(s, Visit(deps, Lookup, s, a));
      if s.structured == None || s.structured.value.entities == [] then r == s
      else if !deps.wikiTools then r == s.(skipped := s.skipped + [LookupUnavailable])
      else
        && r == s.(structured := r.structured, skipped := r.skipped) && r.structured.Some?
        && LookupDone(deps, s.structured.value, s.skipped, a, r.structured.value, r.skipped)
  {
    ReduceSingle(s, N.LookupUpdate(deps, s, a));
    if s.structured.Some? && s.structured.value.entities != [] && deps.wikiTools { LookupIsDone(deps, s, a); }
  }

  lemma LookupUnfolds(deps: N.Deps, s: AgentState, a: N.Answer, n: nat, base: seq<Note>) returns (l: N.Lookup)
    requires s.structured.Some? && s.structured.value.entities != [] && deps.wikiTools
    requires n == if |s.structured.value.entities| <= deps.lookupCap then |s.structured.value.entities| else deps.lookupCap
    requires base == s.skipped + if n < |s.structured.value.entities| then [LookupCapped(n, |s.structured.value.entities|)] else []
    ensures
      var d := s.structured.value;
      && LookedUp(deps.text, d.entities, base, d.entities[..n], n, a, l)
      && N.LookupUpdate(deps, s, a) == NO_UPDATE.(
           structured := Some(Drafts(l.entities + d.entities[n..], d.relationships + N.NotSeen(l.extra, d.relationships))),
           skipped := Some(l.skipped))
  {
    var d := s.structured.value;
    assert N.Take(d.entities, deps.lookupCap) == d.entities[..n];
    assert base[|base|..] == [] && s.skipped + [] == s.skipped;
    var start := N.Lookup([], [], base);
    LookUpAll(deps.text, d.entities, base, d.entities[..n], 0, a, start);
    l := N.LookUp(deps.text, N.ByName(deps.text, d.entities), start, d.entities[..n], 0, a);
  }

  lemma LookupIsDone(deps: N.Deps, s: AgentState, a: N.Answer)
    requires s.structured.Some? && s.structured.value.entities != [] && deps.wikiTools
    ensures
      var u := N.LookupUpdate(deps, s, a);
      && u == NO_UPDATE.(structured := u.structured, skipped := u.skipped) && u.structured.Some? && u.skipped.Some?
      && LookupDone(deps, s.structured.value, s.skipped, a, u.structured.value, u.skipped.value)
  {
    var d := s.structured.value;
    var n := if |d.entities| <= deps.lookupCap then |d.entities| else deps.lookupCap;
    var base := s.skipped + if n < |d.entities| then [LookupCapped(n, |d.entities|)] else [];
    var l := LookupUnfolds(deps, s, a, n, base);
    FirstOnly(deps.text, d.entities, n, a);
    RelationsAdded(deps.text, d, base, n, a, l);
  }

  lemma RelationsAdded(text: Text, d: Drafts, base: seq<Note>, n: nat, a: N.Answer, l: N.Lookup)
    requires n <= |d.entities| && LookedUp(text, d.entities, base, d.entities[..n], n, a, l)
    ensures
      var after := d.relationships + N.NotSeen(l.extra, d.relationships);
      forall edge :: edge in after[|d.relationships|..] <==>
        edge !in d.relationships && RelatedByFirst(text, d.entities, d.entities, a, n, edge)
  {
    var added := N.NotSeen(l.extra, d.relationships);
    FirstOnly(text, d.entities, n, a);
    assert (d.relationships + added)[|d.relationships|..] == added;
    forall edge ensures edge in added <==>
      edge !in d.relationships && RelatedByFirst(text, d.entities, d.entities, a, n, edge)
    {
      NotSeenExactly(l.extra, d.relationships, edge);
    }
  }

  lemma FirstOnly(text: Text, drafts: seq<DraftEntity>, n: nat, a: N.Answer)
    requires n <= |drafts|
    ensures Failures(drafts[..n], a, n) == Failures(drafts, a, n)
    ensures forall edge :: RelatedByFirst(text, drafts, drafts[..n], a, n, edge) <==> RelatedByFirst(text, drafts, drafts, a, n, edge)
  {
  }
}
