/**
  The lifecycle and the jobs together: with atomic reviews and single delivery, whatever came before
  an approval and whatever else is tried after it, the run ends as its one commit job leaves it.
 */
module ApprovedRuns {
  import opened Wrappers
  import opened KnowledgeGraph
  import opened GraphInvariants
  import opened AgentStates
  import opened AgentRow
  import opened CommitNodes
  import opened RunLifecycle
  import Jobs = LifecycleJobs
  import Runs = AgentRuns
  import Records = RunRecords

  /** The steps among these that are a committing worker's. */
  function Own(actions: seq<Action>): seq<Action> {
    if actions == [] then [] else (if Jobs.ByCommitter(actions[0]) then [actions[0]] else []) + Own(actions[1..])
  }

  lemma {:induction false} OwnOfOwn(actions: seq<Action>)
    requires Jobs.AllByCommitter(actions)
    ensures Own(actions) == actions
  {
    if actions != [] {
      assert actions == [actions[0]] + actions[1..];
      OwnOfOwn(actions[1..]);
    }
  }

  /** The approval's job has been taken: nothing is left for anybody else to do. */
  predicate Taken(s: Life) {
    Orderly(s) && s.approvals == 1 && s.approved == 0 && s.commitQueue == 0
  }

  lemma OthersIdle(s: Life, a: Action)
    requires Taken(s) && !Jobs.ByCommitter(a)
    ensures Next(SAFE, s, a) == s
  {
    assert !Enabled(SAFE, s, a);
  }

  lemma StaysTaken(s: Life, a: Action)
    requires Taken(s)
    ensures Taken(Next(SAFE, s, a))
  {
    StepStaysOrderly(s, a);
    if !Jobs.ByCommitter(a) { OthersIdle(s, a); }
  }

  lemma {:induction false} OnlyOwnMatters(s: Life, actions: seq<Action>)
    requires Taken(s)
    ensures Run(SAFE, s, actions) == Run(SAFE, s, Own(actions))
    decreases actions
  {
    if actions != [] {
      StaysTaken(s, actions[0]);
      OnlyOwnMatters(Next(SAFE, s, actions[0]), actions[1..]);
      if Jobs.ByCommitter(actions[0]) {
        assert Own(actions)[0] == actions[0] && Own(actions)[1..] == Own(actions[1..]);
      } else {
        OthersIdle(s, actions[0]);
        assert [] + Own(actions[1..]) == Own(actions[1..]);
      }
    }
  }

  // ---- Before a commit job loads the drafts ----

  predicate Blank(s: Life) {
    s.loaded == [] ==>
      s.committing == 0 && s.writes == [] && (s.row.Some? ==> s.row.value.entityIds == [] && s.row.value.relationshipIds == [])
  }

  lemma StepStaysBlank(rules: Rules, s: Life, a: Action)
    requires Blank(s)
    ensures Blank(Next(rules, s, a))
  {
  }

  lemma {:induction false} StaysBlank(rules: Rules, s: Life, actions: seq<Action>)
    requires Blank(s)
    ensures Blank(Run(rules, s, actions))
    decreases actions
  {
    if actions != [] {
      StepStaysBlank(rules, s, actions[0]);
      StaysBlank(rules, Next(rules, s, actions[0]), actions[1..]);
    }
  }

  /** An approved run whose commit job is queued: nothing written, nothing loaded, its drafts stored. */
  lemma BeforeCommit(g: Graph, before: seq<Action>)
    requires Run(SAFE, Start(g), before).commitQueue > 0
    ensures
      var s := Run(SAFE, Start(g), before);
      && s.row.Some? && s.row.value.status == Running && s.graph == g && s.writes == [] && s.loaded == []
      && s.row.value.entityIds == [] && s.row.value.relationshipIds == [] && s.committing == 0
      && Taken(Next(SAFE, s, TakeCommit(false)))
  {
    StaysOrderly(Start(g), before);
    StaysCautious(SAFE, g, Start(g), before);
    StaysBlank(SAFE, Start(g), before);
    StepStaysOrderly(Run(SAFE, Start(g), before), TakeCommit(false));
  }

  /** The world the job finds. */
  function Untouched(g: Graph): World {
    World(g, [], [], [], 0)
  }

  /** The outcome of the one job, on these drafts. */
  predicate EndedAs(t: Life, out: Runs.Outcome, loaded: seq<Drafts>) {
    t.row == Some(out.row) && t.graph == out.world.graph && t.writes == out.world.writes && t.loaded == loaded
  }

  /** The job's own steps, whatever else is tried between them. */
  lemma JobAmongOthers(taken: Life, c: CommitOracle, text: Text, e: Runs.Ends, owner: UserId, row: Row, w: World)
    returns (job: seq<Action>)
    requires Taken(taken) && taken.row == Some(row) && taken.committing > 0 && taken.graph == w.graph && taken.writes == []
    requires Runs.Stored(row, w) == row && Records.NothingWritten(w)
    ensures job != [] && Own(job) == job
    ensures
      var out := Runs.RunCommit(c, text, e, owner, row, w);
      forall later | Own(later) == job :: EndedAs(Run(SAFE, taken, later), out, taken.loaded)
    ensures forall later, n | 0 <= n < |job| && Own(later) == job[..n] :: Jobs.RowKeepsUp([], Run(SAFE, taken, later))
  {
    job := Jobs.CommitJobIsSteps(SAFE, taken, c, text, e, owner, row, w);
    OwnOfOwn(job);
    var out := Runs.RunCommit(c, text, e, owner, row, w);
    assert [] + out.world.writes == out.world.writes;
    forall later ensures Run(SAFE, taken, later) == Run(SAFE, taken, Own(later)) {
      OnlyOwnMatters(taken, later);
    }
  }

  ghost function AfterTake(s: Life, later: seq<Action>): Life {
    Run(SAFE, Next(SAFE, s, TakeCommit(false)), later)
  }

  lemma QueuedJob(s: Life, g: Graph, before: seq<Action>, c: CommitOracle, text: Text, e: Runs.Ends, owner: UserId)
    returns (job: seq<Action>)
    requires Inv(g) && s == Run(SAFE, Start(g), before) && s.commitQueue > 0
    ensures job != [] && Own(job) == job && s.row.Some?
    ensures
      var out := Runs.RunCommit(c, text, e, owner, s.row.value, Untouched(g));
      forall later | Own(later) == job :: EndedAs(AfterTake(s, later), out, [Or(s.row.value.pending, NO_DRAFTS)])
    ensures forall later, n | 0 <= n < |job| && Own(later) == job[..n] :: Jobs.RowKeepsUp([], AfterTake(s, later))
  {
    BeforeCommit(g, before);
    job := JobAmongOthers(Next(SAFE, s, TakeCommit(false)), c, text, e, owner, s.row.value, Untouched(g));
  }

  /**
    From a queued commit job on, take any steps of anybody, of which the committing worker's are those of
    commit_agent_run.  The final row and graph are those of that one job on the one list of approved
    drafts, and the row records the writes as well as it can.
   */
  lemma ApprovedRunEndsAsItsJob(
    g: Graph, before: seq<Action>, c: CommitOracle, text: Text, e: Runs.Ends, owner: UserId)
    returns (job: seq<Action>)
    requires Inv(g) && Run(SAFE, Start(g), before).commitQueue > 0
    ensures job != [] && Own(job) == job && Run(SAFE, Start(g), before).row.Some?
    ensures
      var row := Run(SAFE, Start(g), before).row.value;
      var out := Runs.RunCommit(c, text, e, owner, row, Untouched(g));
      && Records.RowIsRecord(out.row, Records.HeardResumed(c, text, e, owner, row, Untouched(g)), out.world)
      && forall later | Own(later) == job :: EndedAs(OnceQueued(g, before, later), out, [Or(row.pending, NO_DRAFTS)])
    ensures forall later, n | 0 <= n < |job| && Own(later) == job[..n] ::
      Jobs.RowKeepsUp([], OnceQueued(g, before, later))
  {
    job := QueuedJob(Run(SAFE, Start(g), before), g, before, c, text, e, owner);
    BeforeCommit(g, before);
    Records.ResumedRunRecorded(c, text, e, owner, Run(SAFE, Start(g), before).row.value, Untouched(g));
    forall later ensures OnceQueued(g, before, later) == AfterTake(Run(SAFE, Start(g), before), later) {
      AfterTaking(g, before, later);
    }
  }

  /** The whole life: what came before, the taking of the commit job, and what came after. */
  ghost function OnceQueued(g: Graph, before: seq<Action>, later: seq<Action>): Life {
    Run(SAFE, Start(g), before + ([TakeCommit(false)] + later))
  }

  lemma AfterTaking(g: Graph, before: seq<Action>, later: seq<Action>)
    ensures OnceQueued(g, before, later)
      == AfterTake(Run(SAFE, Start(g), before), later)
  {
    RunAppend(SAFE, Start(g), before, [TakeCommit(false)] + later);
    assert ([TakeCommit(false)] + later)[1..] == later;
  }

  /** The drafts a reviewer decided on: each list sent replaces the parked one. */
  predicate DecidedOn(drafts: Drafts, parked: Row, entities: Option<seq<DraftEntity>>, relationships: Option<seq<DraftRelationship>>) {
    && drafts.entities == (if entities.Some? then entities.value else if parked.pending.Some? then parked.pending.value.entities else [])
    && drafts.relationships
       == (if relationships.Some? then relationships.value
           else if parked.pending.Some? then parked.pending.value.relationships else [])
  }

  function ApprovedRow(parked: Row, entities: Option<seq<DraftEntity>>, relationships: Option<seq<DraftRelationship>>): Row {
    Approved(parked, parked.pending, entities, relationships)
  }

  lemma ApprovedStands(
    parked: Row, entities: Option<seq<DraftEntity>>, relationships: Option<seq<DraftRelationship>>, owner: UserId)
    ensures
      var row := ApprovedRow(parked, entities, relationships);
      && row.status == Running && row.pending.Some? && DecidedOn(row.pending.value, parked, entities, relationships)
      && Runs.ResumeState(owner, row).structured == row.pending
  {
  }

  lemma ApproveQueueTake(s: Life, entities: Option<seq<DraftEntity>>, relationships: Option<seq<DraftRelationship>>)
    requires Orderly(s) && Awaiting(s)
    ensures
      var t := Next(SAFE, Next(SAFE, Next(SAFE, s, Approve(entities, relationships)), EnqueueCommit), TakeCommit(false));
      && t.committing == 1 && t.row == Some(ApprovedRow(s.row.value, entities, relationships))
      && t.loaded == [Or(ApprovedRow(s.row.value, entities, relationships).pending, NO_DRAFTS)]
  {
    var row := ApprovedRow(s.row.value, entities, relationships);
    assert Next(SAFE, s, Approve(entities, relationships)) == s.(row := Some(row), approved := 1, approvals := 1);
  }

  /** What a reviewer approves is what the commit job loads and starts from, list by list. */
  lemma ApprovedDraftsAreCommitted(
    g: Graph, before: seq<Action>, entities: Option<seq<DraftEntity>>, relationships: Option<seq<DraftRelationship>>, owner: UserId)
    requires Awaiting(Run(SAFE, Start(g), before))
    ensures
      var parked := Run(SAFE, Start(g), before).row.value;
      var t := Run(SAFE, Start(g), before + [Approve(entities, relationships)] + [EnqueueCommit] + [TakeCommit(false)]);
      && t.committing == 1 && t.row.Some? && t.row.value.status == Running
      && |t.loaded| == 1 && DecidedOn(t.loaded[0], parked, entities, relationships)
      && Runs.ResumeState(owner, t.row.value).structured == Some(t.loaded[0])
  {
    var s := Run(SAFE, Start(g), before);
    StaysOrderly(Start(g), before);
    ApprovedStands(s.row.value, entities, relationships, owner);
    ApproveQueueTake(s, entities, relationships);
    RunSnoc(SAFE, Start(g), before, Approve(entities, relationships));
    RunSnoc(SAFE, Start(g), before + [Approve(entities, relationships)], EnqueueCommit);
    RunSnoc(SAFE, Start(g), before + [Approve(entities, relationships)] + [EnqueueCommit], TakeCommit(false));
  }
}
