/** The gateway's side of agent runs: creating one and reviewing one, over the agent_runs table and the job queue. */
module RunService {
  import opened Wrappers
  import opened KnowledgeGraph
  import opened AgentStates
  import opened AgentRow
  import opened Faults
  import Life = RunLifecycle

  datatype Record = Record(owner: UserId, topic: string, row: Row)

  datatype Review = Reject | Approve(entities: Option<seq<DraftEntity>>, relationships: Option<seq<DraftRelationship>>)

  datatype RequestError =
    | RunNotFound              // 404, a run of somebody else's included
    | Conflict(status: Status) // 409
    | NotStored                // the row may or may not be written, and nothing is queued
    | NotQueued                // the row is written; its job may or may not be queued

  function Decided(row: Row, review: Review): Row {
    match review
    case Reject => MarkCancelled(row)
    case Approve(entities, relationships) => ApproveReview(row, Reviewed(row, entities, relationships))
  }

  /** The single step of a run's life that a review is when nothing comes between its read and its write. */
  function AsStep(review: Review): Life.Action {
    match review
    case Reject => Life.Cancel
    case Approve(entities, relationships) => Life.Approve(entities, relationships)
  }

  /** A review is possible exactly of a run awaiting one, and then it is that step: an approval hands over one job, a rejection none. */
  lemma ReviewIsStep(rules: Life.Rules, s: Life.Life, row: Row, review: Review)
    requires s.row == Some(row)
    ensures Life.Enabled(rules, s, AsStep(review)) <==> row.status == AwaitingReview
    ensures row.status == AwaitingReview ==>
      Life.Next(rules, s, AsStep(review))
        == s.(row := Some(Decided(row, review)), approved := s.approved + (if review.Approve? then 1 else 0),
              approvals := s.approvals + (if review.Approve? then 1 else 0))
  {
    assert row == row.(pending := row.pending);
  }

  /**
    What stands after a review.  A rejection cancels and drops the drafts; an approval goes on with,
    list by list, what the reviewer sent or else what was parked; nothing else on the row changes.
   */
  predicate Stands(before: Row, review: Review, after: Row) {
    match review
    case Reject => after == before.(status := Cancelled, pending := None)
    case Approve(entities, relationships) =>
      && after.status == Running && after.error == None && after.pending.Some?
      && after == before.(status := Running, error := None, pending := after.pending)
      && (entities.Some? ==> after.pending.value.entities == entities.value)
      && (relationships.Some? ==> after.pending.value.relationships == relationships.value)
      && (entities == None ==>
            after.pending.value.entities == if before.pending.Some? then before.pending.value.entities else [])
      && (relationships == None ==>
            after.pending.value.relationships == if before.pending.Some? then before.pending.value.relationships else [])
  }

  lemma DecidedStands(row: Row, review: Review)
    ensures Stands(row, review, Decided(row, review))
  {
  }

  /**
    A review that read and writes separately: whatever became of the row in between, an approval puts the
    drafts it had read, or what the reviewer sent instead, on a running row, and a rejection cancels it.
   */
  lemma LateReviewStands(rules: Life.Rules, s: Life.Life, i: nat, review: Review)
    requires s.row.Some? && i < |s.deciding|
    ensures
      var write := match review
        case Reject => Life.WriteCancel(i)
        case Approve(entities, relationships) => Life.WriteApproval(i, entities, relationships);
      var t := Life.Next(rules, s, write);
      && t.row.Some? && Stands(s.row.value.(pending := s.deciding[i]), review, t.row.value)
      && t.deciding == s.deciding[..i] + s.deciding[i + 1..]
  {
  }

  /** What it had read is the drafts as they were then. */
  lemma ReviewReadsDrafts(rules: Life.Rules, s: Life.Life)
    requires !rules.atomicReview && s.row.Some?
    ensures
      var t := Life.Next(rules, s, Life.ReadReview);
      t == if s.row.value.status == AwaitingReview then s.(deciding := s.deciding + [s.row.value.pending]) else s
  {
  }

  class RunTable {
    var records: map<Uuid, Record>
    var runJobs: seq<Uuid>
    var commitJobs: seq<Uuid>

    constructor ()
      ensures records == map[] && runJobs == [] && commitJobs == []
    {
      records, runJobs, commitJobs := map[], [], [];
    }

    predicate Owned(user: UserId, id: Uuid)
      reads this`records
    {
      id in records && records[id].owner == user
    }

    /** The insert, then the queue; a failure of either can come after its effect. */
    method CreateRun(user: UserId, topic: string, id: Uuid, insert: Fault, queue: Fault) returns (r: Result<Row, RequestError>)
      requires id !in records
      modifies this`records, this`runJobs
      ensures records == if Applied(insert) then old(records)[id := Record(user, topic, NEW_ROW)] else old(records)
      ensures runJobs == if insert == Fine && Applied(queue) then old(runJobs) + [id] else old(runJobs)
      ensures r == if insert != Fine then Err(NotStored) else if queue != Fine then Err(NotQueued) else Ok(NEW_ROW)
      ensures r.Ok? ==> r.value == Row(Queued, None, None, None, None, [], [], [], None)
    {
      if Applied(insert) { records := records[id := Record(user, topic, NEW_ROW)]; }
      if insert != Fine { return Err(NotStored); }
      if Applied(queue) { runJobs := runJobs + [id]; }
      r := if queue == Fine then Ok(records[id].row) else Err(NotQueued);
    }

    /** Read, check, write. */
    method SubmitReview(user: UserId, id: Uuid, review: Review, write: Fault) returns (r: Result<Row, RequestError>)
      modifies this`records
      ensures r == Err(RunNotFound) <==> !(id in old(records) && old(records)[id].owner == user)
      ensures id in old(records) && old(records)[id].owner == user && old(records)[id].row.status != AwaitingReview ==>
        r == Err(Conflict(old(records)[id].row.status))
      ensures
        var accepted := id in old(records) && old(records)[id].owner == user && old(records)[id].row.status == AwaitingReview;
        && (!accepted ==> records == old(records))
        && (accepted ==>
              var row := Decided(old(records)[id].row, review);
              && r == (if write == Fine then Ok(row) else Err(NotStored))
              && records == if Applied(write) then old(records)[id := old(records)[id].(row := row)] else old(records))
      ensures r.Ok? ==> Stands(old(records)[id].row, review, r.value)
    {
      if !Owned(user, id) {
        return Err(RunNotFound);
      }
      var row := records[id].row;
      if row.status != AwaitingReview {
        return Err(Conflict(row.status));
      }
      match review {
        case Reject => row := MarkCancelled(row);
        case Approve(entities, relationships) => row := ApproveReview(row, Reviewed(row, entities, relationships));
      }
      if Applied(write) { records := records[id := records[id].(row := row)]; }
      r := if write == Fine then Ok(row) else Err(NotStored);
    }

    /** The route: a review, and for an approval that was written the commit job. */
    method ReviewRun(user: UserId, id: Uuid, review: Review, write: Fault, queue: Fault) returns (r: Result<Row, RequestError>)
      modifies this`records, this`commitJobs
      ensures
        var accepted := id in old(records) && old(records)[id].owner == user && old(records)[id].row.status == AwaitingReview;
        && records == (if accepted && Applied(write)
                       then old(records)[id := old(records)[id].(row := Decided(old(records)[id].row, review))]
                       else old(records))
        && commitJobs == (if accepted && review.Approve? && write == Fine && Applied(queue)
                          then old(commitJobs) + [id] else old(commitJobs))
        && (r.Ok? <==> accepted && write == Fine && (review.Approve? ==> queue == Fine))
        && (r.Ok? ==> r.value == records[id].row)
    {
      r := SubmitReview(user, id, review, write);
      if r.Err? { return; }
      if review.Approve? {
        if Applied(queue) { commitJobs := commitJobs + [id]; }
        if queue != Fine { return Err(NotQueued); }
      }
    }
  }
}
