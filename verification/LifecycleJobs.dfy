/** The jobs of AgentRuns, seen from the life of a run: each is a run of the lifecycle's steps. */
module LifecycleJobs {
  import opened Wrappers
  import opened KnowledgeGraph
  import opened AgentStates
  import N = ResearchNodes
  import opened AgentRow
  import opened Faults
  import opened ResearchRun
  import opened CommitNodes
  import opened CommitLaws
  import GraphRuns
  import Runs = AgentRuns
  import opened Sequences
  import Trace = CommitTrace
  import Life = RunLifecycle
  import Marks = ResearchTrace
  import Records = RunRecords

  /** The steps of a commit job. */
  predicate ByCommitter(a: Life.Action) {
    || a.WriteGraph? || a.AppendEntity? || a.AppendRelationship? || a.Succeed? || a.FailCommit?
    || a == Life.Die(Life.Committer)
  }

  predicate AllByCommitter(actions: seq<Life.Action>) {
    forall a | a in actions :: ByCommitter(a)
  }

  // ---- run_agent ----

  function AsProgress(ms: seq<Marks.Mark>): seq<Life.Action> {
    if ms == [] then [] else [Life.Progress(ms[0].node, ms[0].plan)] + AsProgress(ms[1..])
  }

  lemma {:induction false} ProgressSteps(rules: Life.Rules, t: Life.Life, row: Row, ms: seq<Marks.Mark>)
    requires t.row == Some(row) && t.working > 0
    ensures Life.Run(rules, t, AsProgress(ms)) == t.(row := Some(Marks.Noted(row, ms)))
    decreases ms
  {
    if ms != [] {
      var next := RecordNode(row, ms[0].node, ms[0].plan);
      assert AsProgress(ms)[1..] == AsProgress(ms[1..]);
      ProgressSteps(rules, t.(row := Some(next)), next, ms[1..]);
    }
  }

  /** A research job's steps: the start, one progress write an update, and the end. */
  function ResearchSteps(ms: seq<Marks.Mark>, last: Life.Action): seq<Life.Action> {
    [Life.StartRun] + AsProgress(ms) + [last]
  }

  lemma StartedSteps(rules: Life.Rules, s: Life.Life, row: Row, ms: seq<Marks.Mark>)
    requires s.row == Some(row) && s.starting > 0
    ensures Life.Run(rules, s, [Life.StartRun] + AsProgress(ms))
      == s.(row := Some(Marks.Noted(MarkRunning(row), ms)), starting := s.starting - 1, working := s.working + 1)
  {
    var front, started := [Life.StartRun] + AsProgress(ms), Life.Next(rules, s, Life.StartRun);
    assert front[0] == Life.StartRun && front[1..] == AsProgress(ms);
    assert Life.Run(rules, s, front) == Life.Run(rules, started, AsProgress(ms));
    ProgressSteps(rules, started, MarkRunning(row), ms);
  }

  lemma ResearchStepsRun(rules: Life.Rules, s: Life.Life, row: Row, ms: seq<Marks.Mark>, last: Life.Action)
    requires s.row == Some(row) && s.starting > 0
    ensures
      var t := s.(row := Some(Marks.Noted(MarkRunning(row), ms)), starting := s.starting - 1, working := s.working + 1);
      Life.Run(rules, s, ResearchSteps(ms, last)) == Life.Next(rules, t, last)
  {
    StartedSteps(rules, s, row, ms);
    Life.RunSnoc(rules, s, [Life.StartRun] + AsProgress(ms), last);
  }

  lemma ResearchIsMarked(deps: N.Deps, o: Oracle, owner: UserId, row: Row) returns (ms: seq<Marks.Mark>)
    ensures
      var d := Runs.ResearchOf(deps, o, owner, row);
      0 < |d.states| <= |d.visits| + 1 && Marks.Marked(MarkRunning(row), ms, d, Marks.Streamed(deps, o, d))
  {
    assert Marks.NodesOf([]) == [];
    ms := Marks.ResearchMarked(MarkRunning(row), [], deps, o, 0, Node.Plan, StartDrive(owner, MarkRunning(row)));
  }

  /**
    run_agent with review, on the row alone: once it is marked running, one step for every progress
    write that took effect, in the order the updates are streamed, and one for how it ends.
   */
  lemma ResearchJobIsSteps(
    rules: Life.Rules, s: Life.Life, deps: N.Deps, o: Oracle, last: Fault, owner: UserId, row: Row, w: World)
    returns (ms: seq<Marks.Mark>)
    requires s.row == Some(row) && s.starting > 0 && Runs.Stored(row, w) == row
    ensures
      var d := Runs.ResearchOf(deps, o, owner, row);
      && 0 < |d.states| <= |d.visits| + 1 && Marks.Marked(MarkRunning(row), ms, d, Marks.Streamed(deps, o, d))
      && Life.Run(rules, s, ResearchSteps(ms, LastOfResearch(d, last)))
         == s.(row := Some(Runs.RunReviewed(deps, o, Runs.Ends(Fine, last), owner, row, w)), starting := s.starting - 1)
  {
    var d := Runs.ResearchOf(deps, o, owner, row);
    ms := ResearchIsMarked(deps, o, owner, row);
    Runs.R.ResearchCommitsNothing(deps, o, 0, Node.Plan, StartDrive(owner, MarkRunning(row)), owner);
    ResearchStepsRun(rules, s, row, ms, LastOfResearch(d, last));
    var t := s.(row := Some(d.row), starting := s.starting - 1, working := s.working + 1);
    ResearchEnds(rules, t, d, w, last);
  }

  /** And if marking it running already fails, the job ends there, before the mark or after it. */
  lemma UnstartedJobIsSteps(
    rules: Life.Rules, s: Life.Life, deps: N.Deps, o: Oracle, e: Runs.Ends, owner: UserId, row: Row, w: World)
    requires s.row == Some(row) && s.starting > 0 && Runs.Stored(row, w) == row && e.first != Fine
    ensures
      var actions := if Applied(e.first) then ResearchSteps([], Life.Die(Life.Researcher)) else [Life.Die(Life.Starter)];
      Life.Run(rules, s, actions)
        == s.(row := Some(Runs.RunReviewed(deps, o, e, owner, row, w)), starting := s.starting - 1)
  {
    UnstartedRow(deps, o, e, owner, row, w);
    if Applied(e.first) {
      DiesMarked(rules, s, row);
    } else {
      DiesUnmarked(rules, s);
    }
  }

  lemma UnstartedRow(deps: N.Deps, o: Oracle, e: Runs.Ends, owner: UserId, row: Row, w: World)
    requires Runs.Stored(row, w) == row && e.first != Fine
    ensures Runs.RunReviewed(deps, o, e, owner, row, w) == if Applied(e.first) then MarkRunning(row) else row
  {
  }

  lemma DiesMarked(rules: Life.Rules, s: Life.Life, row: Row)
    requires s.row == Some(row) && s.starting > 0
    ensures Life.Run(rules, s, ResearchSteps([], Life.Die(Life.Researcher)))
      == s.(row := Some(MarkRunning(row)), starting := s.starting - 1)
  {
    ResearchStepsRun(rules, s, row, [], Life.Die(Life.Researcher));
  }

  lemma DiesUnmarked(rules: Life.Rules, s: Life.Life)
    requires s.starting > 0
    ensures Life.Run(rules, s, [Life.Die(Life.Starter)]) == s.(starting := s.starting - 1)
  {
    Life.RunSnoc(rules, s, [], Life.Die(Life.Starter));
    assert [] + [Life.Die(Life.Starter)] == [Life.Die(Life.Starter)];
  }

  lemma ResearchEnds(rules: Life.Rules, t: Life.Life, d: Drive, w: World, last: Fault)
    requires t.row == Some(d.row) && t.working > 0 && Runs.Stored(d.row, w) == d.row
    requires d.shadow.committedEntities == [] && d.shadow.committedRelationships == []
    ensures Life.Next(rules, t, LastOfResearch(d, last))
      == t.(row := Some(Runs.EndResearch(d, w, last)), working := t.working - 1)
  {
  }

  function LastOfResearch(d: Drive, last: Fault): Life.Action {
    if !Applied(last) || d.signal == Dead then Life.Die(Life.Researcher)
    else match d.signal
      case Proceed => Life.Park(DraftsOf(d.shadow), Summarise(d.shadow), Urls(d.shadow.documents))
      case Raised => Life.FailRun(NodeRaised)
      case TimedOut => Life.FailRun(DeadlineExceeded)
      case Dead => Life.Die(Life.Researcher)
  }

  // ---- commit_agent_run ----

  /** The step that an entry of a job's trace is; a call that only passes is none. */
  function AsSteps(e: Trace.Entry): seq<Life.Action> {
    match e
    case Called => []
    case Wrote(op) => [Life.WriteGraph(op)]
    case NotedEntity(id) => [Life.AppendEntity(id)]
    case NotedLink(id) => [Life.AppendRelationship(id)]
  }

  function AllSteps(es: seq<Trace.Entry>): seq<Life.Action> {
    if es == [] then [] else AsSteps(es[0]) + AllSteps(es[1..])
  }

  /** The life of the run while a commit job is at world w. */
  function During(s: Life.Life, row: Row, w: World): Life.Life {
    s.(row := Some(Runs.Stored(row, w)), graph := w.graph, writes := s.writes + w.writes)
  }

  lemma StepHappens(rules: Life.Rules, s: Life.Life, row: Row, w: World, e: Trace.Entry)
    requires s.committing > 0
    ensures Life.Run(rules, During(s, row, w), AsSteps(e)) == During(s, row, Trace.Happen(w, e))
  {
    var t := During(s, row, w);
    if !e.Called? {
      var a := AsSteps(e)[0];
      assert AsSteps(e) == [a] && [a][1..] == [];
      assert Life.Run(rules, t, [a]) == Life.Run(rules, Life.Next(rules, t, a), []);
      if e.Wrote? { Associative(s.writes, w.writes, [e.op]); }
    }
  }

  lemma {:induction false} StepsReplay(rules: Life.Rules, s: Life.Life, row: Row, w: World, es: seq<Trace.Entry>)
    requires s.committing > 0
    ensures AllByCommitter(AllSteps(es))
    ensures Life.Run(rules, During(s, row, w), AllSteps(es)) == During(s, row, Trace.Replay(w, es))
    decreases es
  {
    if es != [] {
      StepHappens(rules, s, row, w, es[0]);
      StepsReplay(rules, s, row, Trace.Happen(w, es[0]), es[1..]);
      Life.RunAppend(rules, During(s, row, w), AsSteps(es[0]), AllSteps(es[1..]));
    }
  }

  function LastOfCommit(s: AgentState, signal: Signal, last: Fault): Life.Action {
    if !Applied(last) || signal == Dead then Life.Die(Life.Committer)
    else match signal
      case Proceed => Life.Succeed(Summarise(s), s.committedEntities, s.committedRelationships)
      case Raised => Life.FailCommit(NodeRaised, s.committedEntities, s.committedRelationships)
      case TimedOut => Life.FailCommit(DeadlineExceeded, s.committedEntities, s.committedRelationships)
      case Dead => Life.Die(Life.Committer)
  }

  lemma CommitEnds(rules: Life.Rules, t: Life.Life, state: AgentState, row: Row, w: World, signal: Signal, last: Fault)
    requires t.row == Some(Runs.Stored(row, w)) && t.committing > 0
    ensures Life.Next(rules, t, LastOfCommit(state, signal, last))
      == t.(row := Some(Runs.Conclude(state, row, w, signal, last)), committing := t.committing - 1)
  {
  }

  /** Any cut through the steps is a cut through the calls. */
  lemma {:induction false} StepsPrefix(es: seq<Trace.Entry>, n: nat) returns (m: nat)
    requires n <= |AllSteps(es)|
    ensures m <= |es| && AllSteps(es)[..n] == AllSteps(es[..m])
    decreases es
  {
    m := 0;
    if n == 0 {
      assert es[..0] == [];
    } else {
      var first := AsSteps(es[0]);
      m := StepsPrefix(es[1..], n - |first|);
      m := m + 1;
      assert es[..m][0] == es[0] && es[..m][1..] == es[1..][..m - 1];
      assert (first + AllSteps(es[1..]))[..n] == first + AllSteps(es[1..])[..n - |first|];
    }
  }

  /** Since `base` was the log, the row misses at most the one write in flight. */
  predicate RowKeepsUp(base: seq<GraphRuns.Op>, t: Life.Life) {
    t.row.Some? && base <= t.writes
    && KeepsUp(t.row.value.entityIds, t.row.value.relationshipIds, t.writes[|base|..])
  }

  /** Wherever the steps are cut, as long as they are steady. */
  lemma MomentKeepsUp(
    rules: Life.Rules, s: Life.Life, row: Row, owner: UserId, w: World, es: seq<Trace.Entry>, n: nat)
    requires s.committing > 0 && Trace.Steady(owner, w, es) && n <= |AllSteps(es)|
    ensures RowKeepsUp(s.writes, Life.Run(rules, During(s, row, w), AllSteps(es)[..n]))
  {
    var m := StepsPrefix(es, n);
    var now := Trace.Replay(w, es[..m]);
    StepsReplay(rules, s, row, w, es[..m]);
    Trace.AnyMoment(owner, w, es, m);
    assert During(s, row, now).writes[|s.writes|..] == now.writes;
  }

  /** The step a commit job ends with. */
  ghost function JobEnd(c: CommitOracle, text: Text, e: Runs.Ends, owner: UserId, row: Row, w: World): (a: Life.Action)
    ensures ByCommitter(a)
  {
    if e.first != Fine then Life.Die(Life.Committer)
    else
      var (state, _, signal) := Runs.CommitParked(Runs.ResumeState(owner, row), c, text, w);
      LastOfCommit(state, signal, e.last)
  }

  lemma JobEnds(
    rules: Life.Rules, t: Life.Life, c: CommitOracle, text: Text, e: Runs.Ends, owner: UserId, row: Row, w: World)
    requires Runs.Stored(row, w) == row && t.committing > 0
    requires t.row == Some(Runs.Stored(row, Runs.RunCommit(c, text, e, owner, row, w).world))
    ensures Life.Next(rules, t, JobEnd(c, text, e, owner, row, w))
      == t.(row := Some(Runs.RunCommit(c, text, e, owner, row, w).row), committing := t.committing - 1)
  {
    if e.first == Fine {
      var (state, w', signal) := Runs.CommitParked(Runs.ResumeState(owner, row), c, text, w);
      CommitEnds(rules, t, state, row, w', signal, e.last);
    }
  }

  /** The calls of a commit job. */
  lemma JobCalls(c: CommitOracle, text: Text, e: Runs.Ends, owner: UserId, row: Row, w: World)
    returns (es: seq<Trace.Entry>)
    ensures Trace.Replay(w, es) == Runs.RunCommit(c, text, e, owner, row, w).world
    ensures Records.NothingWritten(w) ==> Trace.Steady(owner, w, es)
  {
    es := [];
    if e.first == Fine { es := Trace.CommitParkedTrace(Runs.ResumeState(owner, row), c, text, w); }
  }

  /**
    commit_agent_run, from the loaded drafts to its very row, graph and writes: each write and each
    append a step of its own.  On a fresh run, at every moment before the last step the row misses at
    most the one write in flight; so each append follows its write before the next entity or edge is made.
   */
  lemma CommitJobIsSteps(
    rules: Life.Rules, s: Life.Life, c: CommitOracle, text: Text, e: Runs.Ends, owner: UserId, row: Row, w: World)
    returns (actions: seq<Life.Action>)
    requires s.row == Some(row) && s.committing > 0 && Runs.Stored(row, w) == row
    requires s.graph == w.graph && w.writes == []
    ensures actions != [] && AllByCommitter(actions)
    ensures
      var out := Runs.RunCommit(c, text, e, owner, row, w);
      Life.Run(rules, s, actions)
        == s.(row := Some(out.row), graph := out.world.graph, committing := s.committing - 1,
              writes := s.writes + out.world.writes)
    ensures Records.NothingWritten(w) ==>
      forall n | 0 <= n < |actions| :: RowKeepsUp(s.writes, Life.Run(rules, s, actions[..n]))
  {
    assert s.writes + [] == s.writes && During(s, row, w) == s;
    var es := JobCalls(c, text, e, owner, row, w);
    var last := JobEnd(c, text, e, owner, row, w);
    StepsReplay(rules, s, row, w, es);
    JobEnds(rules, During(s, row, Runs.RunCommit(c, text, e, owner, row, w).world), c, text, e, owner, row, w);
    actions := AllSteps(es) + [last];
    Life.RunSnoc(rules, s, AllSteps(es), last);
    if Records.NothingWritten(w) { MomentsKeepUp(rules, s, row, owner, w, es, last); }
  }

  lemma MomentsKeepUp(
    rules: Life.Rules, s: Life.Life, row: Row, owner: UserId, w: World, es: seq<Trace.Entry>, last: Life.Action)
    requires s.committing > 0 && Trace.Steady(owner, w, es) && During(s, row, w) == s
    ensures forall n | 0 <= n < |AllSteps(es) + [last]| ::
      RowKeepsUp(s.writes, Life.Run(rules, s, (AllSteps(es) + [last])[..n]))
  {
    var actions := AllSteps(es) + [last];
    forall n | 0 <= n < |actions| ensures RowKeepsUp(s.writes, Life.Run(rules, s, actions[..n])) {
      assert actions[..n] == AllSteps(es)[..n];
      MomentKeepsUp(rules, s, row, owner, w, es, n);
    }
  }
}
