/** The agent_runs row, one function per UPDATE. */
module AgentRow {
  import opened Wrappers
  import opened KnowledgeGraph
  import opened AgentStates

  datatype Status = Queued | Running | AwaitingReview | Succeeded | RunFailed | Cancelled

  datatype Node =
    | Plan | Survey | Search | Broaden | Fetch | Analyze | Synthesize | Structure | Critique | Lookup
    | Commit | Enrich | End

  datatype Failure = DeadlineExceeded | NodeRaised

  datatype Row = Row(
    status: Status,
    currentNode: Option<Node>,
    plan: Option<AgentStates.Plan>,
    result: Option<Summary>,
    pending: Option<Drafts>,
    sourceUrls: seq<Url>,
    entityIds: seq<Uuid>,
    relationshipIds: seq<Uuid>,
    error: Option<Failure>)

  const NEW_ROW := Row(Queued, None, None, None, None, [], [], [], None)

  function MarkRunning(r: Row): Row {
    r.(status := Running, currentNode := None, error := None)
  }

  function RecordNode(r: Row, node: Node, plan: Option<AgentStates.Plan>): Row {
    r.(currentNode := Some(node), plan := if plan.Some? then plan else r.plan)
  }

  function MarkAwaitingReview(r: Row, drafts: Drafts, partial: Summary, urls: seq<Url>): Row {
    r.(status := AwaitingReview, currentNode := None, pending := Some(drafts), result := Some(partial), sourceUrls := urls)
  }

  function ApproveReview(r: Row, drafts: Drafts): Row {
    r.(status := Running, pending := Some(drafts), error := None)
  }

  /** What an approval stores: each list the reviewer sent replaces the parked one. */
  function Reviewed(r: Row, entities: Option<seq<DraftEntity>>, relationships: Option<seq<DraftRelationship>>): Drafts {
    var parked := Or(r.pending, NO_DRAFTS);
    Drafts(Or(entities, parked.entities), Or(relationships, parked.relationships))
  }

  function MarkCancelled(r: Row): Row {
    r.(status := Cancelled, pending := None)
  }

  function MarkSucceeded(r: Row, result: Summary, entities: seq<Uuid>, relationships: seq<Uuid>): Row {
    r.(status := Succeeded, currentNode := None, result := Some(result),
       entityIds := entities, relationshipIds := relationships)
  }

  function MarkFailed(r: Row, error: Failure, entities: seq<Uuid>, relationships: seq<Uuid>): Row {
    r.(status := RunFailed, error := Some(error), entityIds := entities, relationshipIds := relationships)
  }

  function AppendCommittedEntity(r: Row, id: Uuid): Row {
    r.(entityIds := r.entityIds + [id])
  }

  function AppendCommittedRelationship(r: Row, id: Uuid): Row {
    r.(relationshipIds := r.relationshipIds + [id])
  }
}
