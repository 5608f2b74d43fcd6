/**
  The research phase: the routed graph of nodes, the engine's state, the driver's shadow of it,
  and the progress written to the row after every update.
 */
module ResearchRun {
  import opened Wrappers
  import opened KnowledgeGraph
  import opened AgentStates
  import N = ResearchNodes
  import opened AgentRow
  import opened Faults

  /** One answer and one fault a visit, and one fault a progress write. */
  datatype Oracle = Oracle(answer: nat -> N.Answer, visit: nat -> Fault, mark: nat -> Fault)

  // ---- Routing ----

  function AfterSearch(deps: N.Deps, s: AgentState): Node {
    if s.hits != [] || s.searchAttempts >= deps.searchRetries then Fetch else Broaden
  }

  /** critique has already counted itself, so the limit is passed only by more than the retries. */
  function AfterCritique(deps: N.Deps, s: AgentState): Node {
    if s.critique == None || s.critiqueAttempts > deps.critiqueRetries then Lookup else Structure
  }

  function Next(deps: N.Deps, node: Node, s: AgentState): Node {
    match node
    case Plan => Survey
    case Survey => Search
    case Search => AfterSearch(deps, s)
    case Broaden => Search
    case Fetch => if s.documents == [] then Synthesize else Analyze
    case Analyze => Synthesize
    case Synthesize => Structure
    case Structure => Critique
    case Critique => AfterCritique(deps, s)
    case _ => End
  }

  /** What a visit emits: one update, but a fan-out emits one a document. */
  function Visit(deps: N.Deps, node: Node, s: AgentState, a: N.Answer): seq<Update> {
    match node
    case Plan => [NO_UPDATE.(plan := Some(a.plan))]
    case Survey => [NO_UPDATE.(existing := Some(a.survey.0), skipped := Some(s.skipped + a.survey.1))]
    case Search => [N.SearchUpdate(deps, s, a)]
    case Broaden => [N.BroadenUpdate(s, a)]
    case Fetch => [N.FetchUpdate(s, a)]
    case Analyze => N.AnalyzeUpdates(s, a)
    case Synthesize => [NO_UPDATE.(analysis := Some(if s.sourceNotes == [] then "(no sources were analysed)" else a.synthesis))]
    case Structure => [N.StructureUpdate(deps, s, a)]
    case Critique => [N.CritiqueUpdate(s, a)]
    case Lookup => [N.LookupUpdate(deps, s, a)]
    case _ => []
  }

  // ---- The driver ----

  datatype Drive = Drive(
    state: AgentState, shadow: AgentState, row: Row, marks: nat,
    visits: seq<Node>, states: seq<AgentState>, signal: Signal)

  /** One streamed update: into the shadow, then progress into the row. */
  function PersistOne(d: Drive, o: Oracle, node: Node, u: Update): Drive {
    var shadow := Overwrite(d.shadow, u);
    var f := o.mark(d.marks);
    var row := if Applied(f) then RecordNode(d.row, node, if node == Node.Plan then shadow.plan else None) else d.row;
    d.(shadow := shadow, row := row, marks := d.marks + 1, signal := Strike(f))
  }

  function Persist(d: Drive, o: Oracle, node: Node, us: seq<Update>): Drive
    decreases us
  {
    if us == [] || d.signal != Proceed then d else Persist(PersistOne(d, o, node, us[0]), o, node, us[1..])
  }

  function VisitOnce(deps: N.Deps, o: Oracle, k: nat, node: Node, d: Drive): Drive {
    var visited := d.(visits := d.visits + [node]);
    if o.visit(k) != Fine then visited.(signal := Strike(o.visit(k)))
    else
      var us := Visit(deps, node, d.state, o.answer(k));
      var state := ReduceAll(d.state, us);
      Persist(visited.(state := state, states := d.states + [state]), o, node, us)
  }

  // ---- Termination ----

  function Stage(node: Node): nat {
    match node
    case Plan => 8
    case Survey => 7
    case Search => 6
    case Broaden => 6
    case Fetch => 5
    case Analyze => 4
    case Synthesize => 3
    case Structure => 2
    case Critique => 2
    case Lookup => 1
    case _ => 0
  }

  /** Counters on entry to a node. */
  predicate OnTrack(deps: N.Deps, node: Node, s: AgentState) {
    && (Stage(node) > 6 ==> s.searchAttempts == 0)
    && (node == Search ==> s.searchAttempts <= deps.searchRetries)
    && (node == Broaden ==> s.searchAttempts < deps.searchRetries)
    && (Stage(node) > 2 ==> s.critiqueAttempts == 0)
    && (Stage(node) == 2 ==> s.critiqueAttempts <= deps.critiqueRetries)
  }

  function Retries(deps: N.Deps, node: Node, s: AgentState): nat
    requires OnTrack(deps, node, s)
  {
    if node == Search || node == Broaden then deps.searchRetries - s.searchAttempts
    else if Stage(node) == 2 then deps.critiqueRetries - s.critiqueAttempts
    else 0
  }

  lemma {:induction false} ReduceAnalyze(s: AgentState, a: N.Answer, n: nat)
    requires n <= |s.documents|
    ensures
      var r := ReduceAll(s, N.AnalyzeUpdates(s, a)[..n]);
      r == s.(sourceNotes := r.sourceNotes)
  {
    if n > 0 {
      var us := N.AnalyzeUpdates(s, a)[..n];
      assert us[..n - 1] == N.AnalyzeUpdates(s, a)[..n - 1];
      ReduceAnalyze(s, a, n - 1);
    }
  }

  lemma ReduceSingle(s: AgentState, u: Update)
    ensures ReduceAll(s, [u]) == Reduce(s, u)
  {
    assert [u][..0] == [];
  }

  /** A fan-out changes only the notes; any other visit is one update. */
  lemma AfterVisit(deps: N.Deps, node: Node, s: AgentState, a: N.Answer)
    ensures var r := ReduceAll(s, Visit(deps, node, s, a));
      if node == Analyze then r == s.(sourceNotes := r.sourceNotes)
      else if Visit(deps, node, s, a) == [] then r == s
      else Visit(deps, node, s, a) == [Visit(deps, node, s, a)[0]] && r == Reduce(s, Visit(deps, node, s, a)[0])
  {
    if node == Analyze {
      ReduceAnalyze(s, a, |s.documents|);
      assert N.AnalyzeUpdates(s, a)[..|s.documents|] == N.AnalyzeUpdates(s, a);
    } else if Visit(deps, node, s, a) != [] {
      ReduceSingle(s, Visit(deps, node, s, a)[0]);
    }
  }

  lemma StaysOnTrack(deps: N.Deps, node: Node, s: AgentState, a: N.Answer)
    requires OnTrack(deps, node, s) && Stage(node) > 0
    ensures
      var r := ReduceAll(s, Visit(deps, node, s, a));
      var next := Next(deps, node, r);
      && OnTrack(deps, next, r)
      && (Stage(next) < Stage(node)
          || (Stage(next) == Stage(node) && Retries(deps, next, r) < Retries(deps, node, s))
          || (Stage(next) == Stage(node) && Retries(deps, next, r) == Retries(deps, node, s)
              && (node == Search || node == Structure) && (next == Broaden || next == Critique)))
  {
    AfterVisit(deps, node, s, a);
  }

  lemma {:induction false} PersistKeeps(d: Drive, o: Oracle, node: Node, us: seq<Update>)
    ensures
      var p := Persist(d, o, node, us);
      p.state == d.state && p.visits == d.visits && p.states == d.states
    decreases us
  {
    if us != [] && d.signal == Proceed { PersistKeeps(PersistOne(d, o, node, us[0]), o, node, us[1..]); }
  }

  lemma VisitAdvances(deps: N.Deps, o: Oracle, k: nat, node: Node, d: Drive)
    ensures
      var v := VisitOnce(deps, o, k, node, d);
      && v.visits == d.visits + [node]
      && (o.visit(k) == Fine ==>
            && v.state == ReduceAll(d.state, Visit(deps, node, d.state, o.answer(k)))
            && v.states == d.states + [v.state])
      && (o.visit(k) != Fine ==> v.signal != Proceed && v == d.(visits := v.visits, signal := v.signal))
  {
    var us := Visit(deps, node, d.state, o.answer(k));
    var state := ReduceAll(d.state, us);
    PersistKeeps(d.(visits := d.visits + [node], state := state, states := d.states + [state]), o, node, us);
  }

  /** From a node on, to the end of the research phase or to the first failure. */
  function Research(deps: N.Deps, o: Oracle, k: nat, node: Node, d: Drive): Drive
    requires OnTrack(deps, node, d.state)
    decreases Stage(node), Retries(deps, node, d.state), if node == Search || node == Structure then 1 else 0
  {
    if Stage(node) == 0 || d.signal != Proceed then d
    else
      var v := VisitOnce(deps, o, k, node, d);
      if v.signal != Proceed then v
      else
        VisitAdvances(deps, o, k, node, d);
        StaysOnTrack(deps, node, d.state, o.answer(k));
        Research(deps, o, k + 1, Next(deps, node, v.state), v)
  }

  function StartDrive(owner: UserId, row: Row): Drive {
    Drive(InitialState(owner), InitialState(owner), row, 0, [], [InitialState(owner)], Proceed)
  }
}
