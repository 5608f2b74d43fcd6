/**
  One run with review required, under every interleaving of the gateway, the queue, the workers
  and any number of concurrent reviewers.  Every store call is one step; a call whose effect
  happened but whose caller never heard of it is the step followed by a death.
 */
module RunLifecycle {
  import opened Wrappers
  import opened KnowledgeGraph
  import opened GraphRuns
  import opened AgentStates
  import opened AgentRow

  /** What the environment promises: a review reads and writes as one step; a job is taken once. */
  datatype Rules = Rules(atomicReview: bool, singleDelivery: bool)

  /**
    The row and the graph; how many requests and jobs stand at each point; and, for the record,
    the approvals written, the drafts the commit jobs loaded, and the graph writes.
   */
  datatype Life = Life(
    row: Option<Row>,
    graph: Graph,
    posting: nat,            // inserted, not yet enqueued
    runQueue: nat,
    starting: nat,           // taken, not yet marked running
    working: nat,
    deciding: seq<Option<Drafts>>, // has read awaiting_review and these drafts, not yet written
    approved: nat,           // has written an approval, not yet enqueued
    commitQueue: nat,
    committing: nat,
    approvals: nat,
    loaded: seq<Drafts>,
    writes: seq<Op>)

  datatype Role = Poster | Starter | Researcher | Decider(i: nat) | Approver | Committer

  datatype Action =
    | Insert
    | EnqueueRun
    | TakeRun(again: bool)
    | StartRun
    | Progress(node: Node, plan: Option<AgentStates.Plan>)
    | Park(drafts: Drafts, partial: Summary, urls: seq<Url>)
    | FailRun(error: Failure)
    | ReadReview
    | WriteApproval(i: nat, entities: Option<seq<DraftEntity>>, relationships: Option<seq<DraftRelationship>>)
    | WriteCancel(i: nat)
    | Approve(entities: Option<seq<DraftEntity>>, relationships: Option<seq<DraftRelationship>>)
    | Cancel
    | EnqueueCommit
    | TakeCommit(again: bool)
    | WriteGraph(op: Op)
    | AppendEntity(id: Uuid)
    | AppendRelationship(id: Uuid)
    | Succeed(result: Summary, entityIds: seq<Uuid>, relationshipIds: seq<Uuid>)
    | FailCommit(error: Failure, entityIds: seq<Uuid>, relationshipIds: seq<Uuid>)
    | Die(role: Role)

  function Start(g: Graph): Life {
    Life(None, g, 0, 0, 0, 0, [], 0, 0, 0, 0, [], [])
  }

  predicate Awaiting(s: Life) {
    s.row.Some? && s.row.value.status == AwaitingReview
  }

  function Without<T>(s: seq<T>, i: nat): seq<T>
    requires i < |s|
  {
    s[..i] + s[i + 1..]
  }

  predicate Enabled(rules: Rules, s: Life, a: Action) {
    match a
    case Insert => s.row == None
    case EnqueueRun => s.posting > 0
    case TakeRun(again) => s.runQueue > 0 && (again ==> !rules.singleDelivery)
    case StartRun => s.row.Some? && s.starting > 0
    case Progress(_, _) => s.row.Some? && s.working > 0
    case Park(_, _, _) => s.row.Some? && s.working > 0
    case FailRun(_) => s.row.Some? && s.working > 0
    case ReadReview => !rules.atomicReview && Awaiting(s)
    case WriteApproval(i, _, _) => s.row.Some? && i < |s.deciding|
    case WriteCancel(i) => s.row.Some? && i < |s.deciding|
    case Approve(_, _) => Awaiting(s)
    case Cancel => Awaiting(s)
    case EnqueueCommit => s.approved > 0
    case TakeCommit(again) => s.row.Some? && s.commitQueue > 0 && (again ==> !rules.singleDelivery)
    case WriteGraph(_) => s.committing > 0
    case AppendEntity(_) => s.row.Some? && s.committing > 0
    case AppendRelationship(_) => s.row.Some? && s.committing > 0
    case Succeed(_, _, _) => s.row.Some? && s.committing > 0
    case FailCommit(_, _, _) => s.row.Some? && s.committing > 0
    case Die(role) => match role
      case Poster => s.posting > 0
      case Starter => s.starting > 0
      case Researcher => s.working > 0
      case Decider(i) => i < |s.deciding|
      case Approver => s.approved > 0
      case Committer => s.committing > 0
  }

  /** A reader's snapshot, with the reviewer's edits, becomes the pending drafts: no look at the status. */
  function Approved(r: Row, snapshot: Option<Drafts>, entities: Option<seq<DraftEntity>>, relationships: Option<seq<DraftRelationship>>)
    : Row
  {
    ApproveReview(r, Reviewed(r.(pending := snapshot), entities, relationships))
  }

  ghost function Act(rules: Rules, s: Life, a: Action): Life
    requires Enabled(rules, s, a)
  {
    match a
    case Insert => s.(row := Some(NEW_ROW), posting := 1)
    case EnqueueRun => s.(posting := s.posting - 1, runQueue := s.runQueue + 1)
    case TakeRun(again) => s.(runQueue := if again then s.runQueue else s.runQueue - 1, starting := s.starting + 1)
    case StartRun => s.(row := Some(MarkRunning(s.row.value)), starting := s.starting - 1, working := s.working + 1)
    case Progress(node, plan) => s.(row := Some(RecordNode(s.row.value, node, plan)))
    case Park(drafts, partial, urls) =>
      s.(row := Some(MarkAwaitingReview(s.row.value, drafts, partial, urls)), working := s.working - 1)
    case FailRun(error) => s.(row := Some(MarkFailed(s.row.value, error, [], [])), working := s.working - 1)
    case ReadReview => s.(deciding := s.deciding + [s.row.value.pending])
    case WriteApproval(i, entities, relationships) =>
      s.(row := Some(Approved(s.row.value, s.deciding[i], entities, relationships)),
         deciding := Without(s.deciding, i), approved := s.approved + 1, approvals := s.approvals + 1)
    case WriteCancel(i) => s.(row := Some(MarkCancelled(s.row.value)), deciding := Without(s.deciding, i))
    case Approve(entities, relationships) =>
      s.(row := Some(Approved(s.row.value, s.row.value.pending, entities, relationships)),
         approved := s.approved + 1, approvals := s.approvals + 1)
    case Cancel => s.(row := Some(MarkCancelled(s.row.value)))
    case EnqueueCommit => s.(approved := s.approved - 1, commitQueue := s.commitQueue + 1)
    case TakeCommit(again) =>
      s.(commitQueue := if again then s.commitQueue else s.commitQueue - 1,
         committing := s.committing + 1, loaded := s.loaded + [Or(s.row.value.pending, NO_DRAFTS)])
    case WriteGraph(op) => s.(graph := Step(s.graph, op), writes := s.writes + [op])
    case AppendEntity(id) => s.(row := Some(AppendCommittedEntity(s.row.value, id)))
    case AppendRelationship(id) => s.(row := Some(AppendCommittedRelationship(s.row.value, id)))
    case Succeed(result, es, rs) =>
      s.(row := Some(MarkSucceeded(s.row.value, result, es, rs)), committing := s.committing - 1)
    case FailCommit(error, es, rs) =>
      s.(row := Some(MarkFailed(s.row.value, error, es, rs)), committing := s.committing - 1)
    case Die(role) => match role
      case Poster => s.(posting := s.posting - 1)
      case Starter => s.(starting := s.starting - 1)
      case Researcher => s.(working := s.working - 1)
      case Decider(i) => s.(deciding := Without(s.deciding, i))
      case Approver => s.(approved := s.approved - 1)
      case Committer => s.(committing := s.committing - 1)
  }

  /** A step that cannot be taken changes nothing. */
  ghost function Next(rules: Rules, s: Life, a: Action): Life {
    if Enabled(rules, s, a) then Act(rules, s, a) else s
  }

  ghost function Run(rules: Rules, s: Life, actions: seq<Action>): Life
    decreases actions
  {
    if actions == [] then s else Run(rules, Next(rules, s, actions[0]), actions[1..])
  }

  lemma {:induction false} RunAppend(rules: Rules, s: Life, a: seq<Action>, b: seq<Action>)
    ensures Run(rules, s, a + b) == Run(rules, Run(rules, s, a), b)
    decreases a
  {
    if a == [] {
      assert a + b == b;
    } else {
      assert (a + b)[1..] == a[1..] + b;
      RunAppend(rules, Next(rules, s, a[0]), a[1..], b);
    }
  }

  lemma RunSnoc(rules: Rules, s: Life, actions: seq<Action>, a: Action)
    ensures Run(rules, s, actions + [a]) == Next(rules, Run(rules, s, actions), a)
  {
    RunAppend(rules, s, actions, [a]);
    var t := Run(rules, s, actions);
    assert [a][1..] == [];
    assert Run(rules, t, [a]) == Run(rules, Next(rules, t, a), []);
  }

  lemma {:induction false} ExecSnoc(g: Graph, ops: seq<Op>, op: Op)
    ensures Exec(g, ops + [op]) == Step(Exec(g, ops), op)
    decreases ops
  {
    if ops == [] {
      assert [] + [op] == [op] && [op][1..] == [];
    } else {
      assert (ops + [op])[1..] == ops[1..] + [op];
      ExecSnoc(Step(g, ops[0]), ops[1..], op);
    }
  }

  // ---- Nothing before an approval: needs no promise at all ----

  predicate NoneUnapproved(s: Life) {
    s.approvals == 0 ==>
      s.approved == 0 && s.commitQueue == 0 && s.committing == 0 && s.loaded == [] && s.writes == []
  }

  ghost predicate Cautious(g: Graph, s: Life) {
    s.graph == Exec(g, s.writes) && NoneUnapproved(s)
  }

  lemma StepStaysUnapproved(rules: Rules, s: Life, a: Action)
    requires NoneUnapproved(s)
    ensures NoneUnapproved(Next(rules, s, a))
  {
  }

  lemma OnlyWritesWrite(rules: Rules, s: Life, a: Action)
    requires !a.WriteGraph?
    ensures Next(rules, s, a).graph == s.graph && Next(rules, s, a).writes == s.writes
  {
  }

  lemma StepStaysCautious(rules: Rules, g: Graph, s: Life, a: Action)
    requires Cautious(g, s)
    ensures Cautious(g, Next(rules, s, a))
  {
    StepStaysUnapproved(rules, s, a);
    if a.WriteGraph? { ExecSnoc(g, s.writes, a.op); } else { OnlyWritesWrite(rules, s, a); }
  }

  lemma {:induction false} StaysCautious(rules: Rules, g: Graph, s: Life, actions: seq<Action>)
    requires Cautious(g, s)
    ensures Cautious(g, Run(rules, s, actions))
    decreases actions
  {
    if actions != [] {
      StepStaysCautious(rules, g, s, actions[0]);
      StaysCautious(rules, g, Next(rules, s, actions[0]), actions[1..]);
    }
  }

  predicate IsApproval(a: Action) {
    a.Approve? || a.WriteApproval?
  }

  lemma {:induction false} ApprovalsCounted(rules: Rules, s: Life, actions: seq<Action>)
    requires forall a | a in actions :: !IsApproval(a)
    ensures Run(rules, s, actions).approvals == s.approvals
    decreases actions
  {
    if actions != [] {
      assert !IsApproval(actions[0]);
      ApprovalsCounted(rules, Next(rules, s, actions[0]), actions[1..]);
    }
  }

  /** Whatever races and redeliveries there are, until an approval is written the graph is as it was. */
  lemma NoWriteBeforeApproval(rules: Rules, g: Graph, actions: seq<Action>)
    requires forall a | a in actions :: !IsApproval(a)
    ensures Run(rules, Start(g), actions).graph == g && Run(rules, Start(g), actions).loaded == []
  {
    StaysCautious(rules, g, Start(g), actions);
    ApprovalsCounted(rules, Start(g), actions);
  }

  // ---- With both promises ----

  const SAFE := Rules(true, true)

  function RunTokens(s: Life): nat {
    s.posting + s.runQueue + s.starting + s.working
  }

  function CommitTokens(s: Life): nat {
    s.approved + s.commitQueue + s.committing
  }

  predicate Terminal(s: Life) {
    s.row.Some? && (s.row.value.status == Succeeded || s.row.value.status == RunFailed || s.row.value.status == Cancelled)
  }

  /** One thread of control: a job or an approval on its way, never two. */
  predicate OneThread(s: Life) {
    && s.deciding == [] && RunTokens(s) + CommitTokens(s) <= 1 && s.approvals <= 1
    && (s.row == None ==> RunTokens(s) == 0 && s.approvals == 0)
    && (RunTokens(s) > 0 ==> s.approvals == 0)
    && (CommitTokens(s) > 0 ==> s.approvals == 1)
    && s.approved + s.commitQueue + |s.loaded| <= s.approvals
  }

  /** The status says where it is. */
  predicate StatusFits(s: Life) {
    && (CommitTokens(s) > 0 ==> s.row.Some? && s.row.value.status == Running)
    && (s.row.Some? && RunTokens(s) > 0 ==> s.row.value.status == Queued || s.row.value.status == Running)
    && (Awaiting(s) || Terminal(s) ==> RunTokens(s) + CommitTokens(s) == 0)
    && (s.row.Some? && (s.row.value.status == AwaitingReview || s.row.value.status == Cancelled) ==> s.approvals == 0)
    && (s.loaded != [] ==> s.row.Some? && s.loaded == [Or(s.row.value.pending, NO_DRAFTS)])
  }

  predicate Orderly(s: Life) {
    OneThread(s) && StatusFits(s)
  }

  lemma StepKeepsOneThread(s: Life, a: Action)
    requires Orderly(s)
    ensures OneThread(Next(SAFE, s, a))
  {
  }

  lemma StepKeepsStatus(s: Life, a: Action)
    requires Orderly(s)
    ensures StatusFits(Next(SAFE, s, a))
  {
  }

  lemma StepStaysOrderly(s: Life, a: Action)
    requires Orderly(s)
    ensures Orderly(Next(SAFE, s, a))
  {
    StepKeepsOneThread(s, a);
    StepKeepsStatus(s, a);
  }

  lemma {:induction false} StaysOrderly(s: Life, actions: seq<Action>)
    requires Orderly(s)
    ensures Orderly(Run(SAFE, s, actions))
    decreases actions
  {
    if actions != [] {
      StepStaysOrderly(s, actions[0]);
      StaysOrderly(Next(SAFE, s, actions[0]), actions[1..]);
    }
  }

  /** At most one approval, at most one commit, of exactly the drafts approved; and a cancelled run wrote nothing. */
  lemma CommittedAtMostOnce(g: Graph, actions: seq<Action>)
    ensures
      var s := Run(SAFE, Start(g), actions);
      && s.approvals <= 1 && |s.loaded| <= 1
      && (s.loaded != [] ==> s.row.Some? && s.loaded == [Or(s.row.value.pending, NO_DRAFTS)])
      && (s.row.Some? && s.row.value.status == Cancelled ==> s.graph == g && s.loaded == [])
  {
    StaysOrderly(Start(g), actions);
    StaysCautious(SAFE, g, Start(g), actions);
  }

  /** Once succeeded, failed or cancelled, nothing anybody does changes the row or the graph again. */
  lemma {:induction false} TerminalIsForGood(s: Life, actions: seq<Action>)
    requires Orderly(s) && Terminal(s)
    ensures Run(SAFE, s, actions) == s
    decreases actions
  {
    if actions != [] {
      assert !Enabled(SAFE, s, actions[0]);
      TerminalIsForGood(s, actions[1..]);
    }
  }

  lemma TerminalAbsorbs(g: Graph, actions: seq<Action>, later: seq<Action>)
    requires Terminal(Run(SAFE, Start(g), actions))
    ensures Run(SAFE, Start(g), actions + later) == Run(SAFE, Start(g), actions)
  {
    StaysOrderly(Start(g), actions);
    TerminalIsForGood(Run(SAFE, Start(g), actions), later);
    RunAppend(SAFE, Start(g), actions, later);
  }

  // ---- Each promise is needed ----

  lemma Then(rules: Rules, actions: seq<Action>, a: Action) returns (more: seq<Action>)
    ensures more == actions + [a]
    ensures Run(rules, Start(EMPTY), more) == Next(rules, Run(rules, Start(EMPTY), actions), a)
  {
    more := actions + [a];
    RunSnoc(rules, Start(EMPTY), actions, a);
  }

  const NOTHING := Summary("", 0, 0, [])
  const THING := Create(0, 0, Private, "", "", map[])

  /** Up to a parked run; `again` leaves the job in the queue and takes it twice. */
  lemma ToReview(rules: Rules, again: bool) returns (actions: seq<Action>)
    requires again ==> !rules.singleDelivery
    ensures
      var parked := MarkAwaitingReview(MarkRunning(NEW_ROW), NO_DRAFTS, NOTHING, []);
      Run(rules, Start(EMPTY), actions)
        == Start(EMPTY).(row := Some(parked), runQueue := if again then 1 else 0, starting := if again then 1 else 0)
  {
    actions := [];
    actions := Then(rules, actions, Insert);
    actions := Then(rules, actions, EnqueueRun);
    actions := Then(rules, actions, TakeRun(again));
    if again { actions := Then(rules, actions, TakeRun(true)); }
    actions := Then(rules, actions, StartRun);
    actions := Then(rules, actions, Park(NO_DRAFTS, NOTHING, []));
  }

  /** Two reviewers that both read before either writes. */
  lemma TwoReaders(rules: Rules) returns (actions: seq<Action>)
    requires !rules.atomicReview
    ensures
      var parked := MarkAwaitingReview(MarkRunning(NEW_ROW), NO_DRAFTS, NOTHING, []);
      Run(rules, Start(EMPTY), actions)
        == Start(EMPTY).(row := Some(parked), deciding := [Some(NO_DRAFTS), Some(NO_DRAFTS)])
  {
    actions := ToReview(rules, false);
    actions := Then(rules, actions, ReadReview);
    actions := Then(rules, actions, ReadReview);
  }

  /** From an approval to a commit job that has loaded the drafts. */
  lemma ThenCommit(rules: Rules, before: seq<Action>, again: bool) returns (actions: seq<Action>)
    requires again ==> !rules.singleDelivery
    requires
      var s := Run(rules, Start(EMPTY), before);
      s.row.Some? && s.approved == 1 && s.commitQueue == 0
    ensures
      var s := Run(rules, Start(EMPTY), before);
      Run(rules, Start(EMPTY), actions)
        == s.(approved := 0, commitQueue := if again then 1 else 0, committing := s.committing + 1,
              loaded := s.loaded + [Or(s.row.value.pending, NO_DRAFTS)])
  {
    actions := Then(rules, before, EnqueueCommit);
    actions := Then(rules, actions, TakeCommit(again));
  }

  lemma CommitsTwice(rules: Rules) returns (actions: seq<Action>)
    requires rules != SAFE
    ensures |Run(rules, Start(EMPTY), actions).loaded| == 2
  {
    if !rules.atomicReview {
      actions := TwoReaders(rules);
      actions := Then(rules, actions, WriteApproval(0, None, None));
      actions := ThenCommit(rules, actions, false);
      actions := Then(rules, actions, WriteApproval(0, None, None));
      actions := ThenCommit(rules, actions, false);
    } else {
      actions := ToReview(rules, false);
      actions := Then(rules, actions, Approve(None, None));
      actions := ThenCommit(rules, actions, true);
      actions := Then(rules, actions, TakeCommit(true));
    }
  }

  /** Drafts are committed at most once exactly if reviews are atomic and jobs are taken once. */
  lemma OnceExactlyWhenSafe(rules: Rules)
    ensures (forall g, actions :: |Run(rules, Start(g), actions).loaded| <= 1) <==> rules == SAFE
  {
    if rules == SAFE {
      forall g, actions ensures |Run(rules, Start(g), actions).loaded| <= 1 { CommittedAtMostOnce(g, actions); }
    } else {
      var actions := CommitsTwice(rules);
      assert !(|Run(rules, Start(EMPTY), actions).loaded| <= 1);
    }
  }

  predicate CancelledUnwritten(g: Graph, s: Life) {
    s.row.Some? && s.row.value.status == Cancelled ==> s.graph == g
  }

  lemma CancelsAfterWriting(rules: Rules) returns (actions: seq<Action>)
    requires rules != SAFE
    ensures !CancelledUnwritten(EMPTY, Run(rules, Start(EMPTY), actions))
  {
    ThingIsAChange();
    if !rules.atomicReview {
      actions := RacedCommitHasWritten(rules);
      actions := Then(rules, actions, WriteCancel(0));
    } else {
      actions := RedeliveredParksAgain(rules);
      actions := Then(rules, actions, Cancel);
    }
  }

  lemma ThingIsAChange()
    ensures Step(EMPTY, THING) != EMPTY
  {
    assert 0 in Step(EMPTY, THING).entities;
  }

  /** One reviewer's approval is being committed while the other is yet to write. */
  lemma RacedCommitHasWritten(rules: Rules) returns (actions: seq<Action>)
    requires !rules.atomicReview
    ensures
      var s := Run(rules, Start(EMPTY), actions);
      s.row.Some? && |s.deciding| == 1 && s.graph == Step(EMPTY, THING)
  {
    actions := TwoReaders(rules);
    actions := Then(rules, actions, WriteApproval(0, None, None));
    actions := ThenCommit(rules, actions, false);
    actions := Then(rules, actions, WriteGraph(THING));
  }

  /** The research job taken a second time parks the run again after its drafts were committed. */
  lemma RedeliveredParksAgain(rules: Rules) returns (actions: seq<Action>)
    requires !rules.singleDelivery
    ensures Awaiting(Run(rules, Start(EMPTY), actions)) && Run(rules, Start(EMPTY), actions).graph == Step(EMPTY, THING)
  {
    actions := ToReview(rules, true);
    actions := Then(rules, actions, Approve(None, None));
    actions := ThenCommit(rules, actions, false);
    actions := Then(rules, actions, WriteGraph(THING));
    actions := Then(rules, actions, StartRun);
    actions := Then(rules, actions, Park(NO_DRAFTS, NOTHING, []));
  }

  /** A cancelled run has written nothing exactly under the same two promises. */
  lemma CancelExactlyWhenSafe(rules: Rules)
    ensures (forall g, actions :: CancelledUnwritten(g, Run(rules, Start(g), actions))) <==> rules == SAFE
  {
    if rules == SAFE {
      forall g, actions ensures CancelledUnwritten(g, Run(rules, Start(g), actions)) { CommittedAtMostOnce(g, actions); }
    } else {
      var actions := CancelsAfterWriting(rules);
      assert !CancelledUnwritten(EMPTY, Run(rules, Start(EMPTY), actions));
    }
  }

  ghost predicate StaysTerminal(rules: Rules, g: Graph, actions: seq<Action>, a: Action) {
    var s := Run(rules, Start(g), actions);
    Terminal(s) ==> Terminal(Next(rules, s, a))
  }

  lemma Revives(rules: Rules) returns (actions: seq<Action>, a: Action)
    requires rules != SAFE
    ensures !StaysTerminal(rules, EMPTY, actions, a)
  {
    if !rules.atomicReview {
      actions := TwoReaders(rules);
      actions := Then(rules, actions, WriteCancel(0));
      a := WriteApproval(0, None, None);
    } else {
      actions := ToReview(rules, true);
      actions := Then(rules, actions, Cancel);
      a := StartRun;
    }
  }

  /** succeeded, failed and cancelled are final exactly under the same two promises. */
  lemma FinalExactlyWhenSafe(rules: Rules)
    ensures (forall g, actions, a :: StaysTerminal(rules, g, actions, a)) <==> rules == SAFE
  {
    if rules == SAFE {
      forall g, actions, a ensures StaysTerminal(rules, g, actions, a) {
        StaysOrderly(Start(g), actions);
        if Terminal(Run(SAFE, Start(g), actions)) { assert !Enabled(SAFE, Run(SAFE, Start(g), actions), a); }
      }
    } else {
      var actions, a := Revives(rules);
      assert !StaysTerminal(rules, EMPTY, actions, a);
    }
  }
}
