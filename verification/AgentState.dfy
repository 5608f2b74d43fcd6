/** What an agent run passes from node to node: drafts, notes, the state and its partial updates. */
module AgentStates {
  import opened Wrappers
  import opened KnowledgeGraph

  /**
    Lower-casing, and the text form of ids.  `parse` accepts whatever UUID(...) accepts; of it
    only this is known: the canonical text of an id reads back as that id.
   */
  datatype Text = Text(lower: string -> string, parse: string -> Option<Uuid>, canonical: Uuid -> string)

  ghost predicate ReadsBack(text: Text) {
    forall id: Uuid :: text.parse(text.canonical(id)) == Some(id)
  }

  datatype Plan = Plan(summary: string, queries: seq<string>)

  /** `existingId` set means link, do not create. */
  datatype DraftEntity = DraftEntity(
    tempId: string, name: string, kind: string, attributes: Attributes, existingId: Option<Uuid>)

  datatype DraftRelationship = DraftRelationship(fromRef: string, toRef: string, kind: string)

  datatype Drafts = Drafts(entities: seq<DraftEntity>, relationships: seq<DraftRelationship>)

  const NO_DRAFTS := Drafts([], [])

  datatype DigestEntity = DigestEntity(id: Uuid, name: string, kind: string)

  datatype Document = Document(url: Url, text: string)

  datatype LinkRefusal = NotLinkable | PublicEdgePrivateEndpoint

  /** One human-readable line of the run's `skipped` list. */
  datatype Note =
    | SurveyCapped(shown: nat, visible: Option<nat>)
    | SearchUnavailable
    | QueryFailed(query: string)
    | UnsafeUrl(url: Url)
    | CouldNotBroaden(attempt: nat)
    | Broadened(attempt: nat)
    | FetchFailed(url: Url)
    | StructureFailed
    | DroppedEdges(count: nat)
    | Criticised(attempt: nat, text: string)
    | LookupUnavailable
    | LookupCapped(enriched: nat, total: nat)
    | LookupFailed(name: string)
    | EmbedFailed(name: string)
    | AttachFailed(id: Uuid)
    | UnresolvedEndpoint(fromRef: string, toRef: string)
    | EdgeRefused(fromRef: string, toRef: string, why: LinkRefusal)
    | EnrichRefused(name: string, target: string, why: LinkRefusal)

  datatype AgentState = AgentState(
    owner: UserId,
    plan: Option<Plan>,
    existing: Option<seq<DigestEntity>>,
    hits: seq<Url>,
    searchAttempts: nat,
    documents: seq<Document>,
    sourceNotes: seq<string>,
    analysis: Option<string>,
    structured: Option<Drafts>,
    critique: Option<string>,
    critiqueAttempts: nat,
    committedEntities: seq<Uuid>,
    committedRelationships: seq<Uuid>,
    created: seq<DigestEntity>,
    skipped: seq<Note>)

  function InitialState(owner: UserId): AgentState {
    AgentState(owner, None, None, [], 0, [], [], None, None, None, 0, [], [], [], [])
  }

  /** A node's return value: None is a key it did not mention. */
  datatype Update = Update(
    plan: Option<Plan>,
    existing: Option<seq<DigestEntity>>,
    hits: Option<seq<Url>>,
    searchAttempts: Option<nat>,
    documents: Option<seq<Document>>,
    sourceNotes: Option<seq<string>>,
    analysis: Option<string>,
    structured: Option<Drafts>,
    critique: Option<Option<string>>,
    critiqueAttempts: Option<nat>,
    committedEntities: Option<seq<Uuid>>,
    committedRelationships: Option<seq<Uuid>>,
    created: Option<seq<DigestEntity>>,
    skipped: Option<seq<Note>>)

  const NO_UPDATE := Update(None, None, None, None, None, None, None, None, None, None, None, None, None, None)

  function Or<T>(update: Option<T>, current: T): T {
    match update case Some(value) => value case None => current
  }

  /** The driver's copy of the state: dict.update, every key overwritten. */
  function Overwrite(s: AgentState, u: Update): AgentState {
    AgentState(
      s.owner,
      if u.plan.Some? then u.plan else s.plan,
      if u.existing.Some? then u.existing else s.existing,
      Or(u.hits, s.hits),
      Or(u.searchAttempts, s.searchAttempts),
      Or(u.documents, s.documents),
      Or(u.sourceNotes, s.sourceNotes),
      if u.analysis.Some? then u.analysis else s.analysis,
      if u.structured.Some? then u.structured else s.structured,
      Or(u.critique, s.critique),
      Or(u.critiqueAttempts, s.critiqueAttempts),
      Or(u.committedEntities, s.committedEntities),
      Or(u.committedRelationships, s.committedRelationships),
      Or(u.created, s.created),
      Or(u.skipped, s.skipped))
  }

  /** The graph engine's own state: `source_notes` has a reducer and accumulates. */
  function Reduce(s: AgentState, u: Update): AgentState {
    Overwrite(s, u).(sourceNotes := s.sourceNotes + Or(u.sourceNotes, []))
  }

  function ReduceAll(s: AgentState, us: seq<Update>): AgentState {
    if us == [] then s else Reduce(ReduceAll(s, us[..|us| - 1]), us[|us| - 1])
  }

  /** Equal but for the one key the two copies treat differently. */
  predicate Agree(shadow: AgentState, state: AgentState) {
    shadow == state.(sourceNotes := shadow.sourceNotes)
  }

  /** What the run reports. */
  datatype Summary = Summary(analysis: string, entities: nat, relationships: nat, skipped: seq<Note>)

  function Summarise(s: AgentState): Summary {
    Summary(Or(s.analysis, ""), |s.committedEntities|, |s.committedRelationships|, s.skipped)
  }

  function Urls(documents: seq<Document>): seq<Url> {
    seq(|documents|, i requires 0 <= i < |documents| => documents[i].url)
  }

  function DraftsOf(s: AgentState): Drafts {
    Or(s.structured, NO_DRAFTS)
  }
}
