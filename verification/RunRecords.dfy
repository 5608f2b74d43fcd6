/**
  What a run leaves behind, on every run: the row's id columns against the graph writes, the notes,
  the other users' view, and the fate of unedited drafts.
 */
module RunRecords {
  import opened Wrappers
  import opened KnowledgeGraph
  import opened GraphInvariants
  import opened GraphRuns
  import opened AgentStates
  import N = ResearchNodes
  import opened AgentRow
  import opened Faults
  import opened ResearchRun
  import opened CommitNodes
  import opened CommitLaws
  import opened EnrichLaws
  import opened AgentRuns
  import R = ResearchLaws

  // ---- The id columns ----

  /** The world when the node in flight began: the last the driver heard of. */
  ghost function HeardInGraph(d: Drive, o: Oracle, c: CommitOracle, text: Text, w: World): World {
    var (w1, u, signal) := CommitNode(w, c, text, d.state);
    if signal != Proceed then w
    else
      var next := Streamed(d, o, Commit, u);
      if next.signal != Proceed then w1
      else
        var (w2, _, last) := EnrichNode(w1, c, text, next.state);
        if last != Proceed then w1 else w2
  }

  ghost function HeardParked(s: AgentState, c: CommitOracle, text: Text, w: World): World {
    var (w1, u, signal) := CommitNode(w, c, text, s);
    if signal != Proceed then w
    else
      var (w2, _, last) := EnrichNode(w1, c, text, Overwrite(s, u));
      if last != Proceed then w1 else w2
  }

  /** The node in flight has made no entity and no edge since it began. */
  ghost predicate NothingMadeSince(heard: World, w: World)
    requires heard.writes <= w.writes
  {
    forall op | op in w.writes[|heard.writes|..] :: !MakesElement(op)
  }

  /** What every job leaves of the commit phase, wherever it stopped: the driver's lists are those of the last it heard. */
  ghost predicate Sound(owner: UserId, w: World, s: AgentState, heard: World, w': World, signal: Signal) {
    && Extends(owner, w, w') && Inv(w'.graph) && Recorded(w') && heard.writes <= w'.writes
    && s.committedEntities == EntityWrites(heard.writes) && s.committedRelationships == LinkWrites(heard.writes)
    && (signal == Proceed ==> heard == w')
  }

  lemma StillSound(owner: UserId, w: World, heard: World, s: AgentState, w': World, signal: Signal)
    requires Extends(owner, w, heard) && Extends(owner, heard, w') && Inv(w'.graph) && Recorded(w')
    requires InStep(heard, s.committedEntities, s.committedRelationships) && (signal == Proceed ==> heard == w')
    ensures Sound(owner, w, s, heard, w', signal)
  {
    ExtendsTransitive(owner, w, heard, w');
  }

  lemma EnrichParkedSound(w0: World, s: AgentState, c: CommitOracle, text: Text, w: World)
    requires Extends(s.owner, w0, w) && Inv(w.graph) && InStep(w, s.committedEntities, s.committedRelationships)
    ensures
      var (s', w', signal) := EnrichParked(s, c, text, w);
      Sound(s.owner, w0, s', if signal != Proceed then w else w', w', signal)
  {
    var (w', u, signal) := EnrichNode(w, c, text, s);
    EnrichNodeSafe(w, c, text, s);
    if signal != Proceed {
      StillSound(s.owner, w0, w, s, w', signal);
    } else {
      ExtendsTransitive(s.owner, w0, w, w');
      SameWritesExtend(s.owner, w', w');
      StillSound(s.owner, w0, w', Overwrite(s, u), w', signal);
    }
  }

  lemma CommitParkedSound(s: AgentState, c: CommitOracle, text: Text, w: World)
    requires Inv(w.graph) && InStep(w, s.committedEntities, s.committedRelationships)
    ensures
      var (s', w', signal) := CommitParked(s, c, text, w);
      Sound(s.owner, w, s', HeardParked(s, c, text, w), w', signal)
  {
    var (w', u, signal) := CommitNode(w, c, text, s);
    CommitNodeSafe(w, c, text, s);
    SameWritesExtend(s.owner, w, w);
    if signal != Proceed {
      StillSound(s.owner, w, w, s, w', signal);
    } else {
      EnrichParkedSound(w, Overwrite(s, u), c, text, w');
    }
  }

  /** The engine's state and the driver's copy agree, and both list what was written. */
  ghost predicate DriveInStep(d: Drive, w: World, owner: UserId) {
    && Agree(d.shadow, d.state) && d.state.owner == owner && Inv(w.graph)
    && InStep(w, d.shadow.committedEntities, d.shadow.committedRelationships)
  }

  lemma StreamedAgrees(d: Drive, o: Oracle, node: Node, u: Update)
    requires Agree(d.shadow, d.state) && CommitShaped(u) && node != Node.Plan
    ensures
      var d' := Streamed(d, o, node, u);
      && Agree(d'.shadow, d'.state) && d'.shadow == Overwrite(d.shadow, u) && d'.state == Overwrite(d.state, u)
      && d'.row == d.row.(currentNode := d'.row.currentNode)
  {
  }

  lemma EnrichInGraphSound(w0: World, d: Drive, o: Oracle, c: CommitOracle, text: Text, w: World, owner: UserId)
    requires d.signal == Proceed && Extends(owner, w0, w) && DriveInStep(d, w, owner)
    ensures
      var (d', w') := EnrichInGraph(d, o, c, text, w);
      var failed := EnrichNode(w, c, text, d.state).2 != Proceed;
      && Sound(owner, w0, d'.shadow, if failed then w else w', w', d'.signal)
      && Agree(d'.shadow, d'.state) && d'.row == d.row.(currentNode := d'.row.currentNode)
  {
    var (w', u, signal) := EnrichNode(w, c, text, d.state);
    EnrichNodeSafe(w, c, text, d.state);
    CommitUpdatesShaped(w, c, text, d.state);
    if signal != Proceed {
      StillSound(owner, w0, w, d.shadow, w', signal);
    } else {
      StreamedAgrees(d, o, Enrich, u);
      ExtendsTransitive(owner, w0, w, w');
      SameWritesExtend(owner, w', w');
      StillSound(owner, w0, w', Overwrite(d.shadow, u), w', Streamed(d, o, Enrich, u).signal);
    }
  }

  lemma CommitInGraphSound(d: Drive, o: Oracle, c: CommitOracle, text: Text, w: World, owner: UserId)
    requires d.signal == Proceed && DriveInStep(d, w, owner)
    ensures
      var (d', w') := CommitInGraph(d, o, c, text, w);
      && Sound(owner, w, d'.shadow, HeardInGraph(d, o, c, text, w), w', d'.signal)
      && Agree(d'.shadow, d'.state) && d'.row == d.row.(currentNode := d'.row.currentNode)
  {
    var (w', u, signal) := CommitNode(w, c, text, d.state);
    CommitNodeSafe(w, c, text, d.state);
    SameWritesExtend(owner, w, w);
    if signal != Proceed {
      StillSound(owner, w, w, d.shadow, w', signal);
    } else {
      var next := Streamed(d, o, Commit, u);
      CommitUpdatesShaped(w, c, text, d.state);
      StreamedAgrees(d, o, Commit, u);
      SameWritesExtend(owner, w', w');
      if next.signal != Proceed {
        StillSound(owner, w, w', next.shadow, w', next.signal);
      } else {
        EnrichInGraphSound(w, next, o, c, text, w', owner);
      }
    }
  }

  ghost predicate RowIsExact(row: Row, w: World) {
    row.entityIds == EntityWrites(w.writes) && row.relationshipIds == LinkWrites(w.writes)
  }

  /**
    The two id columns list a prefix of what was written.  On success they are exact.  Written over by
    mark_failed, they are exact exactly if the node in flight had made nothing since it began.  Left as
    the appends made them, they miss at most the one write in flight.
   */
  ghost predicate RowIsRecord(row: Row, heard: World, w: World) {
    && heard.writes <= w.writes
    && row.entityIds <= EntityWrites(w.writes) && row.relationshipIds <= LinkWrites(w.writes)
    && (row.status == Succeeded ==> RowIsExact(row, w))
    && (row.status == RunFailed ==> (RowIsExact(row, w) <==> NothingMadeSince(heard, w)))
    && (row.status != RunFailed ==>
          |EntityWrites(w.writes)| + |LinkWrites(w.writes)| <= |row.entityIds| + |row.relationshipIds| + 1)
  }

  ghost predicate NothingWritten(w: World) {
    Inv(w.graph) && w.writes == [] && w.entityIds == [] && w.relationshipIds == []
  }

  lemma ConcludedRow(
    owner: UserId, w: World, s: AgentState, row: Row, heard: World, w': World, signal: Signal, last: Fault)
    requires Sound(owner, w, s, heard, w', signal) && row.status == Running
    ensures RowIsRecord(Conclude(s, row, w', signal, last), heard, w')
  {
    SameIdsExactly(heard.writes, w'.writes);
  }

  ghost function HeardDirect(deps: N.Deps, o: Oracle, c: CommitOracle, e: Ends, owner: UserId, row: Row, w: World): World {
    if e.first != Fine || ResearchOf(deps, o, owner, row).signal != Proceed then w
    else HeardInGraph(ResearchOf(deps, o, owner, row), o, c, deps.text, w)
  }

  ghost function HeardResumed(c: CommitOracle, text: Text, e: Ends, owner: UserId, row: Row, w: World): World {
    if e.first != Fine then w else HeardParked(ResumeState(owner, row), c, text, w)
  }

  lemma ResearchedInStep(deps: N.Deps, o: Oracle, owner: UserId, row: Row, w: World)
    requires NothingWritten(w) && ResearchOf(deps, o, owner, row).signal == Proceed
    ensures DriveInStep(ResearchOf(deps, o, owner, row), w, owner)
  {
    var start := StartDrive(owner, MarkRunning(row));
    R.ResearchCommitsNothing(deps, o, 0, Node.Plan, start, owner);
    R.ShadowAgrees(deps, o, 0, Node.Plan, start);
  }

  /** run_agent, whatever fails: a private extension of the graph, and a row that records it as well as it can. */
  lemma DirectRunRecorded(deps: N.Deps, o: Oracle, c: CommitOracle, e: Ends, owner: UserId, row: Row, w: World)
    requires row.status == Queued && NothingWritten(w)
    ensures
      var out := RunDirect(deps, o, c, e, owner, row, w);
      && Extends(owner, w, out.world) && Inv(out.world.graph)
      && RowIsRecord(out.row, HeardDirect(deps, o, c, e, owner, row, w), out.world)
  {
    SameWritesExtend(owner, w, w);
    if e.first == Fine {
      var d := ResearchOf(deps, o, owner, row);
      R.ResearchCommitsNothing(deps, o, 0, Node.Plan, StartDrive(owner, MarkRunning(row)), owner);
      if d.signal != Proceed {
        StillSound(owner, w, w, d.shadow, w, d.signal);
        ConcludedRow(owner, w, d.shadow, d.row, w, w, d.signal, e.last);
      } else {
        ResearchedInStep(deps, o, owner, row, w);
        CommitInGraphSound(d, o, c, deps.text, w, owner);
        var (d', w') := CommitInGraph(d, o, c, deps.text, w);
        ConcludedRow(owner, w, d'.shadow, d'.row, HeardInGraph(d, o, c, deps.text, w), w', d'.signal, e.last);
      }
    }
  }

  /** commit_agent_run, likewise, on any parked row, edited or not. */
  lemma ResumedRunRecorded(c: CommitOracle, text: Text, e: Ends, owner: UserId, row: Row, w: World)
    requires row.status == Running && NothingWritten(w)
    ensures
      var out := RunCommit(c, text, e, owner, row, w);
      && Extends(owner, w, out.world) && Inv(out.world.graph)
      && RowIsRecord(out.row, HeardResumed(c, text, e, owner, row, w), out.world)
  {
    SameWritesExtend(owner, w, w);
    if e.first == Fine {
      CommitParkedSound(ResumeState(owner, row), c, text, w);
      var (s, w', signal) := CommitParked(ResumeState(owner, row), c, text, w);
      ConcludedRow(owner, w, s, row, HeardParked(ResumeState(owner, row), c, text, w), w', signal, e.last);
    }
  }

  /** For one: the deadline strikes just after the append of the first entity, and mark_failed takes the append back. */
  lemma FailureErasesRecord(c: CommitOracle, text: Text, owner: UserId, draft: DraftEntity)
    requires draft.existingId == None && c.fault(0) == Fine && c.fault(1) == Deadline(true)
    ensures
      var row := NEW_ROW.(status := Running, pending := Some(Drafts([draft], [])));
      var out := RunCommit(c, text, Ends(Fine, Fine), owner, row, World(EMPTY, [], [], [], 0));
      && out.row.status == RunFailed && out.row.entityIds == []
      && out.world.entityIds == [c.id(0)] && EntityWrites(out.world.writes) == [c.id(0)]
  {
    var w := World(EMPTY, [], [], [], 0);
    var op := CreateOp(w, c, owner, draft);
    var w' := World(Step(EMPTY, op), [c.id(0)], [], [op], 2);
    var k := EntityWork(map[], [], [], []);
    assert [op][..0] == [];
    assert CommitEntity(w, c, owner, [], draft, k).0 == w' && CommitEntity(w, c, owner, [], draft, k).2 == TimedOut;
    var s := ResumeState(owner, NEW_ROW.(status := Running, pending := Some(Drafts([draft], []))));
    assert Urls(s.documents) == [] && DraftsOf(s).entities == [draft];
    assert CommitEntities(w, c, owner, [], [draft], k).0 == w';
  }

  // ---- Notes ----

  lemma NotesAdded(d: Drive, o: Oracle, node: Node, u: Update)
    requires R.NotesKept(d) && d.state.skipped <= Overwrite(d.state, u).skipped
    ensures R.NotesKept(Streamed(d, o, node, u)) && d.states <= Streamed(d, o, node, u).states
  {
    R.GrowOnce(d.states, Streamed(d, o, node, u).state);
  }

  lemma CommitInGraphKeepsNotes(d: Drive, o: Oracle, c: CommitOracle, text: Text, w: World, owner: UserId)
    requires d.signal == Proceed && DriveInStep(d, w, owner) && R.NotesKept(d)
    ensures var d' := CommitInGraph(d, o, c, text, w).0; R.NotesKept(d') && d.states <= d'.states
  {
    var (w', u, signal) := CommitNode(w, c, text, d.state);
    CommitNodeSafe(w, c, text, d.state);
    if signal == Proceed {
      var next := Streamed(d, o, Commit, u);
      CommitUpdatesShaped(w, c, text, d.state);
      StreamedAgrees(d, o, Commit, u);
      NotesAdded(d, o, Commit, u);
      EnrichNodeSafe(w', c, text, next.state);
      var (_, u2, last) := EnrichNode(w', c, text, next.state);
      if next.signal == Proceed && last == Proceed { NotesAdded(next, o, Enrich, u2); }
    }
  }

  /** In a run without review each state's notes extend those of every earlier one, from plan to enrich. */
  lemma DirectNotesGrow(deps: N.Deps, o: Oracle, c: CommitOracle, owner: UserId, row: Row, w: World)
    requires NothingWritten(w)
    ensures
      var d := ResearchOf(deps, o, owner, row);
      R.NotesKept(if d.signal == Proceed then CommitInGraph(d, o, c, deps.text, w).0 else d)
  {
    var d := ResearchOf(deps, o, owner, row);
    R.NotesOnlyGrow(deps, o, 0, Node.Plan, StartDrive(owner, MarkRunning(row)));
    if d.signal == Proceed {
      ResearchedInStep(deps, o, owner, row, w);
      CommitInGraphKeepsNotes(d, o, c, deps.text, w, owner);
    }
  }

  lemma CommitParkedKeepsNotes(s: AgentState, c: CommitOracle, text: Text, w: World)
    requires Inv(w.graph) && InStep(w, s.committedEntities, s.committedRelationships)
    ensures s.skipped <= CommitParked(s, c, text, w).0.skipped
  {
    var (w', u, signal) := CommitNode(w, c, text, s);
    CommitNodeSafe(w, c, text, s);
    if signal == Proceed { EnrichNodeSafe(w', c, text, Overwrite(s, u)); }
  }

  /** Across parking and any approval, edited or not, too: the notes of research, of the parked row, and of the commit phase. */
  lemma ParkedNotesGrow(
    deps: N.Deps, o: Oracle, c: CommitOracle, owner: UserId, row: Row, w: World,
    entities: Option<seq<DraftEntity>>, relationships: Option<seq<DraftRelationship>>)
    requires row.status == Queued && Stored(row, w) == row && NothingWritten(w)
    requires ResearchOf(deps, o, owner, row).signal == Proceed
    ensures
      var d := ResearchOf(deps, o, owner, row);
      var parked := RunReviewed(deps, o, Ends(Fine, Fine), owner, row, w);
      var s := ResumeState(owner, ApproveReview(parked, Reviewed(parked, entities, relationships)));
      && R.NotesKept(d) && parked.result.Some? && parked.result.value.skipped == s.skipped == d.state.skipped
      && s.skipped <= CommitParked(s, c, deps.text, w).0.skipped
  {
    var parked := RunReviewed(deps, o, Ends(Fine, Fine), owner, row, w);
    R.NotesOnlyGrow(deps, o, 0, Node.Plan, StartDrive(owner, MarkRunning(row)));
    ResearchedInStep(deps, o, owner, row, w);
    CommitParkedKeepsNotes(ResumeState(owner, ApproveReview(parked, Reviewed(parked, entities, relationships))), c, deps.text, w);
  }

  // ---- Other users ----

  /** Whatever a run does to the graph, no other user's view of it changes. */
  lemma DirectRunInvisible(deps: N.Deps, o: Oracle, c: CommitOracle, e: Ends, owner: UserId, row: Row, w: World, other: UserId)
    requires row.status == Queued && NothingWritten(w) && other != owner
    ensures ListGraph(RunDirect(deps, o, c, e, owner, row, w).world.graph, other) == ListGraph(w.graph, other)
  {
    DirectRunRecorded(deps, o, c, e, owner, row, w);
    PrivateRunInvisible(w.graph, owner, RunDirect(deps, o, c, e, owner, row, w).world.writes, other);
  }

  lemma ResumedRunInvisible(c: CommitOracle, text: Text, e: Ends, owner: UserId, row: Row, w: World, other: UserId)
    requires row.status == Running && NothingWritten(w) && other != owner
    ensures ListGraph(RunCommit(c, text, e, owner, row, w).world.graph, other) == ListGraph(w.graph, other)
  {
    ResumedRunRecorded(c, text, e, owner, row, w);
    PrivateRunInvisible(w.graph, owner, RunCommit(c, text, e, owner, row, w).world.writes, other);
  }

  // ---- Unedited drafts ----

  /**
    Whatever the model and the wiki answered, no edge of a run whose drafts nobody edited is skipped as
    unresolved: not in a run without review, and not in one parked and approved as it stands.
   */
  lemma UneditedDraftsResolve(deps: N.Deps, o: Oracle, c: CommitOracle, owner: UserId, row: Row, w: World)
    requires ReadsBack(deps.text) && NothingWritten(w) && ResearchOf(deps, o, owner, row).signal == Proceed
    requires row.status == Queued && Stored(row, w) == row
    ensures
      var s := ResearchOf(deps, o, owner, row).state;
      CommitNode(w, c, deps.text, s).2 == Proceed ==> AddsNoUnresolved(s, CommitNode(w, c, deps.text, s).1)
    ensures
      var s := ResumeState(owner, Unedited(deps, o, owner, row, w));
      CommitNode(w, c, deps.text, s).2 == Proceed ==> AddsNoUnresolved(s, CommitNode(w, c, deps.text, s).1)
  {
    var d := ResearchOf(deps, o, owner, row);
    var s := ResumeState(owner, Unedited(deps, o, owner, row, w));
    R.DraftsResolvable(deps, o, 0, Node.Plan, StartDrive(owner, MarkRunning(row)));
    ResearchedInStep(deps, o, owner, row, w);
    UneditedInParity(deps, o, owner, row, w);
    CommitReadsOnly(w, c, deps.text, d.state, s);
    if CommitNode(w, c, deps.text, d.state).2 == Proceed {
      ResolvableDraftsCommit(w, c, deps.text, d.state);
    }
  }
}
