/** Nothing is lost in a run's life: every request, job, review and approval, counted under every interleaving. */
module LifecycleLedger {
  import opened Wrappers
  import opened KnowledgeGraph
  import opened GraphRuns
  import opened RunLifecycle

  /** What an action moves on, takes, ends or kills. */
  datatype Kind =
    | Inserts | QueuesRun | TakesRun | RemovesRun | StartsRun | EndsRun | Reads | Decides | Approves
    | QueuesCommit | TakesCommit | RemovesCommit | EndsCommit
    | KillsPoster | KillsStarter | KillsResearcher | KillsDecider | KillsApprover | KillsCommitter

  predicate Is(a: Action, kind: Kind) {
    match kind
    case Inserts => a.Insert?
    case QueuesRun => a.EnqueueRun?
    case TakesRun => a.TakeRun?
    case RemovesRun => a == TakeRun(false)
    case StartsRun => a.StartRun?
    case EndsRun => a.Park? || a.FailRun?
    case Reads => a.ReadReview?
    case Decides => a.WriteApproval? || a.WriteCancel?
    case Approves => a.Approve? || a.WriteApproval?
    case QueuesCommit => a.EnqueueCommit?
    case TakesCommit => a.TakeCommit?
    case RemovesCommit => a == TakeCommit(false)
    case EndsCommit => a.Succeed? || a.FailCommit?
    case KillsPoster => a == Die(Poster)
    case KillsStarter => a == Die(Starter)
    case KillsResearcher => a == Die(Researcher)
    case KillsDecider => a.Die? && a.role.Decider?
    case KillsApprover => a == Die(Approver)
    case KillsCommitter => a == Die(Committer)
  }

  /** The actions that could be taken when their turn came. */
  ghost function Taken(rules: Rules, g: Graph, actions: seq<Action>): seq<Action> {
    if actions == [] then []
    else
      var front, last := actions[..|actions| - 1], actions[|actions| - 1];
      Taken(rules, g, front) + if Enabled(rules, Run(rules, Start(g), front), last) then [last] else []
  }

  function Tally(actions: seq<Action>, kind: Kind): nat {
    if actions == [] then 0
    else Tally(actions[..|actions| - 1], kind) + if Is(actions[|actions| - 1], kind) then 1 else 0
  }

  function GraphWrites(actions: seq<Action>): seq<Op> {
    if actions == [] then []
    else
      var last := actions[|actions| - 1];
      GraphWrites(actions[..|actions| - 1]) + if last.WriteGraph? then [last.op] else []
  }

  /** The run job, inserted and queued: each is still there, has gone on, or died there. */
  predicate PostsBalance(s: Life, taken: seq<Action>) {
    && (s.row == None ==> s.posting == 0)
    && s.posting + Tally(taken, QueuesRun) + Tally(taken, KillsPoster) == Tally(taken, Inserts)
    && s.runQueue + Tally(taken, RemovesRun) == Tally(taken, QueuesRun)
  }

  /** The run job, taken. */
  predicate StartsBalance(s: Life, taken: seq<Action>) {
    s.starting + Tally(taken, StartsRun) + Tally(taken, KillsStarter) == Tally(taken, TakesRun)
  }

  /** The run job, started. */
  predicate RunsBalance(s: Life, taken: seq<Action>) {
    s.working + Tally(taken, EndsRun) + Tally(taken, KillsResearcher) == Tally(taken, StartsRun)
  }

  /** Reviews read but not yet written. */
  predicate ReviewsBalance(s: Life, taken: seq<Action>) {
    |s.deciding| + Tally(taken, Decides) + Tally(taken, KillsDecider) == Tally(taken, Reads)
  }

  /** Approvals written, their jobs not yet queued. */
  predicate ApprovalsBalance(s: Life, taken: seq<Action>) {
    && s.approvals == Tally(taken, Approves)
    && s.approved + Tally(taken, QueuesCommit) + Tally(taken, KillsApprover) == s.approvals
  }

  /** The commit job, queued; and all that was written, in order. */
  predicate WritesBalance(s: Life, taken: seq<Action>) {
    s.commitQueue + Tally(taken, RemovesCommit) == Tally(taken, QueuesCommit) && s.writes == GraphWrites(taken)
  }

  /** The commit job, taken with its drafts. */
  predicate LoadsBalance(s: Life, taken: seq<Action>) {
    |s.loaded| == Tally(taken, TakesCommit)
  }

  /** The commit job, at work. */
  predicate CommitsBalance(s: Life, taken: seq<Action>) {
    s.committing + Tally(taken, EndsCommit) + Tally(taken, KillsCommitter) == Tally(taken, TakesCommit)
  }

  lemma TallyNext(taken: seq<Action>, a: Action)
    ensures forall kind :: Tally(taken + [a], kind) == Tally(taken, kind) + if Is(a, kind) then 1 else 0
    ensures GraphWrites(taken + [a]) == GraphWrites(taken) + if a.WriteGraph? then [a.op] else []
  {
    assert (taken + [a])[..|taken|] == taken;
  }

  lemma StepPostsBalance(rules: Rules, s: Life, a: Action, taken: seq<Action>)
    requires Enabled(rules, s, a) && PostsBalance(s, taken)
    ensures PostsBalance(Act(rules, s, a), taken + [a])
  {
    TallyNext(taken, a);
  }

  lemma StepApprovalsBalance(rules: Rules, s: Life, a: Action, taken: seq<Action>)
    requires Enabled(rules, s, a) && ApprovalsBalance(s, taken)
    ensures ApprovalsBalance(Act(rules, s, a), taken + [a])
  {
    TallyNext(taken, a);
    assert Act(rules, s, a).approved
      == s.approved + (if Is(a, Approves) then 1 else 0) - if a.EnqueueCommit? || Is(a, KillsApprover) then 1 else 0;
  }

  lemma StepStartsBalance(rules: Rules, s: Life, a: Action, taken: seq<Action>)
    requires Enabled(rules, s, a) && StartsBalance(s, taken)
    ensures StartsBalance(Act(rules, s, a), taken + [a])
  {
    TallyNext(taken, a);
  }

  lemma StepWritesBalance(rules: Rules, s: Life, a: Action, taken: seq<Action>)
    requires Enabled(rules, s, a) && WritesBalance(s, taken)
    ensures WritesBalance(Act(rules, s, a), taken + [a])
  {
    TallyNext(taken, a);
  }

  lemma StepRunsBalance(rules: Rules, s: Life, a: Action, taken: seq<Action>)
    requires Enabled(rules, s, a) && RunsBalance(s, taken)
    ensures RunsBalance(Act(rules, s, a), taken + [a])
  {
    TallyNext(taken, a);
    assert Act(rules, s, a).working
      == s.working + (if a.StartRun? then 1 else 0) - if Is(a, EndsRun) || Is(a, KillsResearcher) then 1 else 0;
  }

  lemma StepReviewsBalance(rules: Rules, s: Life, a: Action, taken: seq<Action>)
    requires Enabled(rules, s, a) && ReviewsBalance(s, taken)
    ensures ReviewsBalance(Act(rules, s, a), taken + [a])
  {
    TallyNext(taken, a);
    assert |Act(rules, s, a).deciding|
      == |s.deciding| + (if a.ReadReview? then 1 else 0) - if Is(a, Decides) || Is(a, KillsDecider) then 1 else 0;
  }

  lemma StepLoadsBalance(rules: Rules, s: Life, a: Action, taken: seq<Action>)
    requires Enabled(rules, s, a) && LoadsBalance(s, taken)
    ensures LoadsBalance(Act(rules, s, a), taken + [a])
  {
    TallyNext(taken, a);
  }

  lemma StepCommitsBalance(rules: Rules, s: Life, a: Action, taken: seq<Action>)
    requires Enabled(rules, s, a) && CommitsBalance(s, taken)
    ensures CommitsBalance(Act(rules, s, a), taken + [a])
  {
    TallyNext(taken, a);
    assert Act(rules, s, a).committing
      == s.committing + (if a.TakeCommit? then 1 else 0) - if Is(a, EndsCommit) || Is(a, KillsCommitter) then 1 else 0;
  }

  /**
    Under every interleaving, whatever is promised: each insert, job, review and approval is still at its
    point, or has gone on to the next, or died there; and the graph writes are those of the commit jobs, in order.
   */
  lemma {:induction false} NothingIsLost(rules: Rules, g: Graph, actions: seq<Action>)
    ensures
      var s, taken := Run(rules, Start(g), actions), Taken(rules, g, actions);
      && PostsBalance(s, taken) && StartsBalance(s, taken) && RunsBalance(s, taken) && ReviewsBalance(s, taken)
      && ApprovalsBalance(s, taken) && LoadsBalance(s, taken) && CommitsBalance(s, taken) && WritesBalance(s, taken)
  {
    if actions != [] {
      var front, last := actions[..|actions| - 1], actions[|actions| - 1];
      var s, taken := Run(rules, Start(g), front), Taken(rules, g, front);
      assert actions == front + [last];
      NothingIsLost(rules, g, front);
      RunSnoc(rules, Start(g), front, last);
      if Enabled(rules, s, last) {
        StepPostsBalance(rules, s, last, taken);
        StepStartsBalance(rules, s, last, taken);
        StepRunsBalance(rules, s, last, taken);
        StepReviewsBalance(rules, s, last, taken);
        StepApprovalsBalance(rules, s, last, taken);
        StepLoadsBalance(rules, s, last, taken);
        StepCommitsBalance(rules, s, last, taken);
        StepWritesBalance(rules, s, last, taken);
      } else {
        assert taken + [] == taken;
      }
    }
  }
}
