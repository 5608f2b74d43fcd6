/**
  The agent-run jobs as wholes: run_agent with and without review, and commit_agent_run, the
  phase an approval resumes.  What they write to the graph and leave on the row, for every
  answer of the world and every place a call can fail.
 */
module AgentRuns {
  import opened Wrappers
  import opened KnowledgeGraph
  import opened GraphInvariants
  import opened AgentStates
  import N = ResearchNodes
  import opened AgentRow
  import opened Faults
  import opened ResearchRun
  import opened CommitNodes
  import opened CommitLaws
  import opened EnrichLaws
  import R = ResearchLaws

  // ---- The jobs ----

  /** The row with the id lists that the commit phase appended to, one write at a time. */
  function Stored(row: Row, w: World): Row {
    row.(entityIds := w.entityIds, relationshipIds := w.relationshipIds)
  }

  /** The last write of a job that got as far as its guarded body; a worker that died makes none. */
  function Conclude(s: AgentState, row: Row, w: World, signal: Signal, last: Fault): Row {
    var row := Stored(row, w);
    if !Applied(last) then row
    else match signal
      case Proceed => MarkSucceeded(row, Summarise(s), s.committedEntities, s.committedRelationships)
      case Raised => MarkFailed(row, NodeRaised, s.committedEntities, s.committedRelationships)
      case TimedOut => MarkFailed(row, DeadlineExceeded, s.committedEntities, s.committedRelationships)
      case Dead => row
  }

  /** Everything that can go differently in a job but for the world's answers: its first and last store call. */
  datatype Ends = Ends(first: Fault, last: Fault)

  datatype Outcome = Outcome(row: Row, world: World)

  /** A node of the commit phase, streamed: engine state, then the driver's copy and the row's progress. */
  function Streamed(d: Drive, o: Oracle, node: Node, u: Update): Drive {
    var state := Reduce(d.state, u);
    PersistOne(d.(state := state, states := d.states + [state]), o, node, u)
  }

  ghost function EnrichInGraph(d: Drive, o: Oracle, c: CommitOracle, text: Text, w: World): (Drive, World) {
    var (w', u, signal) := EnrichNode(w, c, text, d.state);
    if signal != Proceed then (d.(signal := signal), w') else (Streamed(d, o, Enrich, u), w')
  }

  /** commit and enrich inside the graph, when no review stands between them and research. */
  ghost function CommitInGraph(d: Drive, o: Oracle, c: CommitOracle, text: Text, w: World): (Drive, World) {
    var (w', u, signal) := CommitNode(w, c, text, d.state);
    if signal != Proceed then (d.(signal := signal), w')
    else
      var next := Streamed(d, o, Commit, u);
      if next.signal != Proceed then (next, w') else EnrichInGraph(next, o, c, text, w')
  }

  function ResearchOf(deps: N.Deps, o: Oracle, owner: UserId, row: Row): Drive {
    Research(deps, o, 0, Node.Plan, StartDrive(owner, MarkRunning(row)))
  }

  /** run_agent without review. */
  ghost function RunDirect(deps: N.Deps, o: Oracle, c: CommitOracle, e: Ends, owner: UserId, row: Row, w: World): Outcome {
    if e.first != Fine then Outcome(Stored(if Applied(e.first) then MarkRunning(row) else row, w), w)
    else
      var d := ResearchOf(deps, o, owner, row);
      if d.signal != Proceed then Outcome(Conclude(d.shadow, d.row, w, d.signal, e.last), w)
      else
        var (d', w') := CommitInGraph(d, o, c, deps.text, w);
        Outcome(Conclude(d'.shadow, d'.row, w', d'.signal, e.last), w')
  }

  /** Research over: the drafts are parked, or the failure recorded. */
  function EndResearch(d: Drive, w: World, last: Fault): Row {
    if d.signal != Proceed then Conclude(d.shadow, d.row, w, d.signal, last)
    else if Applied(last)
    then MarkAwaitingReview(Stored(d.row, w), DraftsOf(d.shadow), Summarise(d.shadow), Urls(d.shadow.documents))
    else Stored(d.row, w)
  }

  /** run_agent with review: nothing goes to the graph. */
  function RunReviewed(deps: N.Deps, o: Oracle, e: Ends, owner: UserId, row: Row, w: World): Row {
    if e.first != Fine then Stored(if Applied(e.first) then MarkRunning(row) else row, w)
    else EndResearch(ResearchOf(deps, o, owner, row), w, e.last)
  }

  function Bare(urls: seq<Url>): seq<Document> {
    seq(|urls|, i requires 0 <= i < |urls| => Document(urls[i], ""))
  }

  /** What load_parked and the driver make of the row. */
  function ResumeState(owner: UserId, row: Row): AgentState {
    var s := InitialState(owner).(structured := Some(Or(row.pending, NO_DRAFTS)), documents := Bare(row.sourceUrls));
    match row.result
    case None => s
    case Some(partial) => s.(analysis := Some(partial.analysis), skipped := partial.skipped)
  }

  ghost function EnrichParked(s: AgentState, c: CommitOracle, text: Text, w: World): (AgentState, World, Signal) {
    var (w', u, signal) := EnrichNode(w, c, text, s);
    (if signal != Proceed then s else Overwrite(s, u), w', signal)
  }

  /** The guarded body: one state, overwritten by each node's update. */
  ghost function CommitParked(s: AgentState, c: CommitOracle, text: Text, w: World): (AgentState, World, Signal) {
    var (w', u, signal) := CommitNode(w, c, text, s);
    if signal != Proceed then (s, w', signal) else EnrichParked(Overwrite(s, u), c, text, w')
  }

  /** commit_agent_run. */
  ghost function RunCommit(c: CommitOracle, text: Text, e: Ends, owner: UserId, row: Row, w: World): Outcome {
    if e.first != Fine then Outcome(Stored(row, w), w)
    else
      var (s, w', signal) := CommitParked(ResumeState(owner, row), c, text, w);
      Outcome(Conclude(s, row, w', signal, e.last), w')
  }

  // ---- Resuming agrees with running straight through ----

  /** Equal on every key that commit_node and enrich_node read. */
  predicate SameForCommit(a: AgentState, b: AgentState) {
    && a.owner == b.owner && DraftsOf(a) == DraftsOf(b) && Urls(a.documents) == Urls(b.documents)
    && a.committedEntities == b.committedEntities && a.committedRelationships == b.committedRelationships
    && a.created == b.created && a.skipped == b.skipped
  }

  lemma CommitReadsOnly(w: World, c: CommitOracle, text: Text, a: AgentState, b: AgentState)
    requires SameForCommit(a, b)
    ensures CommitNode(w, c, text, a) == CommitNode(w, c, text, b)
    ensures EnrichNode(w, c, text, a) == EnrichNode(w, c, text, b)
  {
  }

  /** The nodes of this phase write none of the keys whose handling differs. */
  predicate CommitShaped(u: Update) {
    u == NO_UPDATE.(committedEntities := u.committedEntities, committedRelationships := u.committedRelationships,
                    created := u.created, skipped := u.skipped)
  }

  lemma CommitUpdatesShaped(w: World, c: CommitOracle, text: Text, s: AgentState)
    ensures CommitShaped(CommitNode(w, c, text, s).1) && CommitShaped(EnrichNode(w, c, text, s).1)
  {
  }

  /** The engine's state and the driver's copy, against the one state of a resumed run. */
  predicate InParity(d: Drive, s: AgentState) {
    && SameForCommit(d.state, s) && SameForCommit(d.shadow, s) && Or(d.shadow.analysis, "") == Or(s.analysis, "")
  }

  lemma StreamedKeepsParity(d: Drive, o: Oracle, node: Node, u: Update, s: AgentState)
    requires CommitShaped(u) && InParity(d, s) && node != Node.Plan
    ensures
      var d' := Streamed(d, o, node, u);
      InParity(d', Overwrite(s, u)) && d'.row == d.row.(currentNode := d'.row.currentNode)
  {
  }

  lemma EnrichPhasesAgree(d: Drive, o: Oracle, c: CommitOracle, text: Text, w: World, s: AgentState)
    requires d.signal == Proceed && InParity(d, s)
    ensures
      var (d', w') := EnrichInGraph(d, o, c, text, w);
      var (s', v', signal) := EnrichParked(s, c, text, w);
      && w' == v' && InParity(d', s') && (o.mark(d.marks) == Fine ==> d'.signal == signal)
      && d'.row == d.row.(currentNode := d'.row.currentNode)
  {
    CommitReadsOnly(w, c, text, d.state, s);
    CommitUpdatesShaped(w, c, text, s);
    StreamedKeepsParity(d, o, Enrich, EnrichNode(w, c, text, s).1, s);
  }

  /**
    From states that agree, the two forms of the commit phase make the same writes and end in states
    that agree; a failed progress write, which the resumed form does not make, comes after the writes.
   */
  lemma CommitPhasesAgree(d: Drive, o: Oracle, c: CommitOracle, text: Text, w: World, s: AgentState)
    requires d.signal == Proceed && InParity(d, s) && o.mark(d.marks) == Fine
    ensures
      var (d', w') := CommitInGraph(d, o, c, text, w);
      var (s', v', signal) := CommitParked(s, c, text, w);
      && w' == v' && InParity(d', s') && (o.mark(d.marks + 1) == Fine ==> d'.signal == signal)
      && d'.row == d.row.(currentNode := d'.row.currentNode)
  {
    CommitReadsOnly(w, c, text, d.state, s);
    var (w', u, signal) := CommitNode(w, c, text, s);
    if signal == Proceed {
      CommitUpdatesShaped(w, c, text, s);
      StreamedKeepsParity(d, o, Commit, u, s);
      EnrichPhasesAgree(Streamed(d, o, Commit, u), o, c, text, w', Overwrite(s, u));
    }
  }

  /** What parking stored and resuming restored agrees with what research left. */
  lemma ResumeRestores(d: Drive, owner: UserId, row: Row)
    requires Agree(d.shadow, d.state) && R.Uncommitted(d.shadow, owner) && R.Uncommitted(d.state, owner)
    requires row.pending == Some(DraftsOf(d.shadow)) && row.result == Some(Summarise(d.shadow))
    requires row.sourceUrls == Urls(d.shadow.documents)
    ensures InParity(d, ResumeState(owner, row))
  {
    assert Urls(Bare(row.sourceUrls)) == row.sourceUrls;
  }

  /** Same status, same lists, same error; and on success the same result. */
  predicate SameEnd(direct: Row, resumed: Row) {
    && direct.status == resumed.status && direct.error == resumed.error
    && direct.entityIds == resumed.entityIds && direct.relationshipIds == resumed.relationshipIds
    && (direct.status == Succeeded ==> direct.result == resumed.result)
  }

  lemma ConcludeAgrees(a: AgentState, before: Row, b: AgentState, after: Row, w: World, signal: Signal, last: Fault)
    requires SameForCommit(a, b) && Or(a.analysis, "") == Or(b.analysis, "")
    requires before.status == after.status == Running && before.error == after.error
    ensures SameEnd(Conclude(a, before, w, signal, last), Conclude(b, after, w, signal, last))
  {
  }

  /** The row that an unedited approval hands to the second job. */
  lemma ApprovedRow(deps: N.Deps, o: Oracle, owner: UserId, row: Row, w: World)
    requires row.status == Queued && Stored(row, w) == row && ResearchOf(deps, o, owner, row).signal == Proceed
    ensures
      var d := ResearchOf(deps, o, owner, row);
      var parked := RunReviewed(deps, o, Ends(Fine, Fine), owner, row, w);
      var approved := ApproveReview(parked, Reviewed(parked, None, None));
      && parked.status == AwaitingReview && approved.status == Running && approved.error == None
      && d.row.status == Running && d.row.error == None
      && approved.pending == Some(DraftsOf(d.shadow)) && approved.result == Some(Summarise(d.shadow))
      && approved.sourceUrls == Urls(d.shadow.documents)
  {
    R.ResearchCommitsNothing(deps, o, 0, Node.Plan, StartDrive(owner, MarkRunning(row)), owner);
  }

  /** A run that came through research, parked and approved without edits: what the second job starts from. */
  function Unedited(deps: N.Deps, o: Oracle, owner: UserId, row: Row, w: World): Row {
    var parked := RunReviewed(deps, o, Ends(Fine, Fine), owner, row, w);
    ApproveReview(parked, Reviewed(parked, None, None))
  }

  lemma UneditedInParity(deps: N.Deps, o: Oracle, owner: UserId, row: Row, w: World)
    requires row.status == Queued && Stored(row, w) == row && ResearchOf(deps, o, owner, row).signal == Proceed
    ensures InParity(ResearchOf(deps, o, owner, row), ResumeState(owner, Unedited(deps, o, owner, row, w)))
  {
    var start := StartDrive(owner, MarkRunning(row));
    R.ShadowAgrees(deps, o, 0, Node.Plan, start);
    R.ResearchCommitsNothing(deps, o, 0, Node.Plan, start, owner);
    ApprovedRow(deps, o, owner, row, w);
    ResumeRestores(ResearchOf(deps, o, owner, row), owner, Unedited(deps, o, owner, row, w));
  }

  /** From the end of research: the rest of the direct run, and the resumed job, end alike. */
  lemma EndsAgree(d: Drive, o: Oracle, c: CommitOracle, text: Text, last: Fault, owner: UserId, approved: Row, w: World)
    requires d.signal == Proceed && InParity(d, ResumeState(owner, approved))
    requires o.mark(d.marks) == Fine && o.mark(d.marks + 1) == Fine
    requires d.row.status == approved.status == Running && d.row.error == approved.error
    ensures
      var (d', w') := CommitInGraph(d, o, c, text, w);
      var resumed := RunCommit(c, text, Ends(Fine, last), owner, approved, w);
      resumed.world == w' && SameEnd(Conclude(d'.shadow, d'.row, w', d'.signal, last), resumed.row)
  {
    var s := ResumeState(owner, approved);
    CommitPhasesAgree(d, o, c, text, w, s);
    var (d', w') := CommitInGraph(d, o, c, text, w);
    var (s', _, signal) := CommitParked(s, c, text, w);
    ConcludeAgrees(d'.shadow, d'.row, s', approved, w', signal, last);
  }

  /**
    Parking a run and approving it without edits makes the same graph writes, call for call, and
    ends with the same result and the same id lists as the run without review.
   */
  lemma ReviewChangesNothing(
    deps: N.Deps, o: Oracle, c: CommitOracle, last: Fault, owner: UserId, row: Row, w: World)
    requires row.status == Queued && Stored(row, w) == row
    requires
      var d := ResearchOf(deps, o, owner, row);
      d.signal == Proceed && o.mark(d.marks) == Fine && o.mark(d.marks + 1) == Fine
    ensures RunReviewed(deps, o, Ends(Fine, Fine), owner, row, w).status == AwaitingReview
    ensures
      var direct := RunDirect(deps, o, c, Ends(Fine, last), owner, row, w);
      var resumed := RunCommit(c, deps.text, Ends(Fine, last), owner, Unedited(deps, o, owner, row, w), w);
      resumed.world == direct.world && SameEnd(direct.row, resumed.row)
  {
    var d := ResearchOf(deps, o, owner, row);
    var approved := Unedited(deps, o, owner, row, w);
    ApprovedRow(deps, o, owner, row, w);
    UneditedInParity(deps, o, owner, row, w);
    EndsAgree(d, o, c, deps.text, last, owner, approved, w);
  }

  /**
    Whatever becomes of the two progress writes that only the direct run makes, its graph writes are
    a prefix of the resumed run's: all of them, unless the one after commit failed.
   */
  lemma DirectWritesArePrefix(
    deps: N.Deps, o: Oracle, c: CommitOracle, last: Fault, owner: UserId, row: Row, w: World)
    requires row.status == Queued && Stored(row, w) == row && Inv(w.graph) && InStep(w, [], [])
    requires ResearchOf(deps, o, owner, row).signal == Proceed
    ensures
      var direct := RunDirect(deps, o, c, Ends(Fine, last), owner, row, w);
      var resumed := RunCommit(c, deps.text, Ends(Fine, last), owner, Unedited(deps, o, owner, row, w), w);
      && Extends(owner, direct.world, resumed.world) && direct.world.writes <= resumed.world.writes
      && (o.mark(ResearchOf(deps, o, owner, row).marks) == Fine ==> direct.world == resumed.world)
  {
    var d := ResearchOf(deps, o, owner, row);
    var s := ResumeState(owner, Unedited(deps, o, owner, row, w));
    UneditedInParity(deps, o, owner, row, w);
    if o.mark(d.marks) == Fine {
      CommitPhasesAgree(d, o, c, deps.text, w, s);
      SameWritesExtend(owner, CommitParked(s, c, deps.text, w).1, CommitParked(s, c, deps.text, w).1);
    } else {
      UnmarkedCommitIsPrefix(d, o, c, deps.text, w, s);
    }
  }

  lemma UnmarkedCommitIsPrefix(d: Drive, o: Oracle, c: CommitOracle, text: Text, w: World, s: AgentState)
    requires d.signal == Proceed && InParity(d, s) && o.mark(d.marks) != Fine
    requires Inv(w.graph) && InStep(w, s.committedEntities, s.committedRelationships)
    ensures Extends(s.owner, CommitInGraph(d, o, c, text, w).1, CommitParked(s, c, text, w).1)
  {
    CommitReadsOnly(w, c, text, d.state, s);
    var (w', u, signal) := CommitNode(w, c, text, s);
    CommitNodeSafe(w, c, text, s);
    if signal == Proceed {
      EnrichNodeSafe(w', c, text, Overwrite(s, u));
    } else {
      SameWritesExtend(s.owner, w', w');
    }
  }
}
