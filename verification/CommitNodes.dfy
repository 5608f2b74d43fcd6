/**
  commit and enrich: writing the drafts to the graph one by one, recording each write on the row
  as it lands.  Any call to a store or a model may fail, before its effect or after it.
 */
module CommitNodes {
  import opened Wrappers
  import opened KnowledgeGraph
  import opened AgentStates
  import opened Faults
  import opened GraphRuns

  /** What the two nodes write: the graph, the row's id lists, the graph writes that took effect, and a call counter. */
  datatype World = World(
    graph: Graph, entityIds: seq<Uuid>, relationshipIds: seq<Uuid>, writes: seq<Op>, calls: nat)

  /** Indexed by call: how it ends, the fresh id it would use, and what a search or a model returns. */
  datatype CommitOracle = CommitOracle(
    fault: nat -> Fault,
    id: nat -> Uuid,
    near: nat -> seq<Uuid>,
    links: nat -> seq<(string, string)>)

  function Count(w: World): World {
    w.(calls := w.calls + 1)
  }

  /** A call that writes nothing this model tracks. */
  function Ask(w: World, o: CommitOracle): (World, Signal) {
    (Count(w), Strike(o.fault(w.calls)))
  }

  ghost function Write(w: World, op: Op): World {
    w.(graph := Step(w.graph, op), writes := w.writes + [op])
  }

  // ---- Store calls ----

  function CreateOp(w: World, o: CommitOracle, owner: UserId, draft: DraftEntity): Op {
    Create(owner, o.id(w.calls), Private, draft.name, draft.kind, draft.attributes)
  }

  /** An id already taken is refused by the uniqueness constraint: an exception, and no write. */
  ghost function StoreEntity(w: World, o: CommitOracle, owner: UserId, draft: DraftEntity): (World, Signal) {
    var f := o.fault(w.calls);
    if o.id(w.calls) in w.graph.entities then (Count(w), if f == Fine then Raised else Strike(f))
    else (Count(if Applied(f) then Write(w, CreateOp(w, o, owner, draft)) else w), Strike(f))
  }

  function RecordEntity(w: World, o: CommitOracle, id: Uuid): (World, Signal) {
    var f := o.fault(w.calls);
    (Count(if Applied(f) then w.(entityIds := w.entityIds + [id]) else w), Strike(f))
  }

  ghost function StoreSources(w: World, o: CommitOracle, owner: UserId, id: Uuid, urls: seq<Url>): (World, Signal) {
    var f := o.fault(w.calls);
    (Count(if Applied(f) then Write(w, Attach(owner, id, urls)) else w), Strike(f))
  }

  function LinkOp(w: World, o: CommitOracle, owner: UserId, src: Uuid, dst: Uuid, kind: string): Op {
    Link(owner, o.id(w.calls), src, dst, kind, Private)
  }

  /** The second component is whether a row came back. */
  ghost function StoreLink(w: World, o: CommitOracle, owner: UserId, src: Uuid, dst: Uuid, kind: string): (World, bool, Signal) {
    var f := o.fault(w.calls);
    if MayLink(w.graph, owner, src, dst, Private)
    then (Count(if Applied(f) then Write(w, LinkOp(w, o, owner, src, dst, kind)) else w), true, Strike(f))
    else (Count(w), false, Strike(f))
  }

  function RecordLink(w: World, o: CommitOracle, id: Uuid): (World, Signal) {
    var f := o.fault(w.calls);
    (Count(if Applied(f) then w.(relationshipIds := w.relationshipIds + [id]) else w), Strike(f))
  }

  // ---- commit: entities ----

  datatype EntityWork = EntityWork(
    idMap: map<string, Uuid>, committed: seq<Uuid>, created: seq<DigestEntity>, skipped: seq<Note>)

  /** Best effort: an exception becomes a note; the deadline and a death do not. */
  ghost function TryAttach(w: World, o: CommitOracle, owner: UserId, id: Uuid, urls: seq<Url>, skipped: seq<Note>)
    : (World, seq<Note>, Signal)
  {
    if urls == [] then (w, skipped, Proceed)
    else
      var (next, signal) := StoreSources(w, o, owner, id, urls);
      if signal == Raised then (next, skipped + [AttachFailed(id)], Proceed) else (next, skipped, signal)
  }

  /** The embedding call and, if it answered, the write of the vector. */
  function TryEmbed(w: World, o: CommitOracle, name: string, skipped: seq<Note>): (World, seq<Note>, Signal) {
    var (asked, first) := Ask(w, o);
    var (next, signal) := if first == Proceed then Ask(asked, o) else (asked, first);
    if signal == Raised then (next, skipped + [EmbedFailed(name)], Proceed) else (next, skipped, signal)
  }

  ghost function CommitEntity(w: World, o: CommitOracle, owner: UserId, urls: seq<Url>, draft: DraftEntity, k: EntityWork)
    : (World, EntityWork, Signal)
  {
    if draft.existingId.Some? then (w, k.(idMap := k.idMap[draft.tempId := draft.existingId.value]), Proceed)
    else
      var id := o.id(w.calls);
      var (stored, s1) := StoreEntity(w, o, owner, draft);
      if s1 != Proceed then (stored, k, s1)
      else
        var k1 := k.(idMap := k.idMap[draft.tempId := id], committed := k.committed + [id],
                     created := k.created + [DigestEntity(id, draft.name, draft.kind)]);
        var (recorded, s2) := RecordEntity(stored, o, id);
        if s2 != Proceed then (recorded, k1, s2)
        else
          var (attached, notes, s3) := TryAttach(recorded, o, owner, id, urls, k1.skipped);
          if s3 != Proceed then (attached, k1, s3)
          else
            var (embedded, notes', s4) := TryEmbed(attached, o, draft.name, notes);
            (embedded, k1.(skipped := notes'), s4)
  }

  ghost function CommitEntities(
    w: World, o: CommitOracle, owner: UserId, urls: seq<Url>, drafts: seq<DraftEntity>, k: EntityWork)
    : (World, EntityWork, Signal)
    decreases drafts
  {
    if drafts == [] then (w, k, Proceed)
    else
      var (next, k', signal) := CommitEntity(w, o, owner, urls, drafts[0], k);
      if signal != Proceed then (next, k', signal) else CommitEntities(next, o, owner, urls, drafts[1..], k')
  }

  // ---- commit: relationships ----

  function ResolveRef(text: Text, idMap: map<string, Uuid>, ref: string): Option<Uuid> {
    if ref in idMap then Some(idMap[ref]) else text.parse(ref)
  }

  datatype LinkWork = LinkWork(committed: seq<Uuid>, skipped: seq<Note>)

  /** Create the edge; a refusal, explained by a second read, becomes `refused`. */
  ghost function MakeLink(
    w: World, o: CommitOracle, owner: UserId, src: Uuid, dst: Uuid, kind: string, k: LinkWork, refused: Note)
    : (World, LinkWork, Signal)
  {
    var id := o.id(w.calls);
    var (stored, row, s1) := StoreLink(w, o, owner, src, dst, kind);
    if s1 != Proceed then (stored, k, s1)
    else if !row then
      var (asked, s2) := Ask(stored, o);
      if s2 != Proceed then (asked, k, s2) else (asked, k.(skipped := k.skipped + [refused]), Proceed)
    else
      var (recorded, s2) := RecordLink(stored, o, id);
      (recorded, k.(committed := k.committed + [id]), s2)
  }

  ghost function CommitRelationship(
    w: World, o: CommitOracle, text: Text, owner: UserId, edge: DraftRelationship, idMap: map<string, Uuid>, k: LinkWork)
    : (World, LinkWork, Signal)
  {
    var src, dst := ResolveRef(text, idMap, edge.fromRef), ResolveRef(text, idMap, edge.toRef);
    if src == None || dst == None
    then (w, k.(skipped := k.skipped + [UnresolvedEndpoint(edge.fromRef, edge.toRef)]), Proceed)
    else MakeLink(w, o, owner, src.value, dst.value, edge.kind, k, EdgeRefused(edge.fromRef, edge.toRef, NotLinkable))
  }

  ghost function CommitRelationships(
    w: World, o: CommitOracle, text: Text, owner: UserId, edges: seq<DraftRelationship>, idMap: map<string, Uuid>, k: LinkWork)
    : (World, LinkWork, Signal)
    decreases edges
  {
    if edges == [] then (w, k, Proceed)
    else
      var (next, k', signal) := CommitRelationship(w, o, text, owner, edges[0], idMap, k);
      if signal != Proceed then (next, k', signal)
      else CommitRelationships(next, o, text, owner, edges[1..], idMap, k')
  }

  ghost function CommitNode(w: World, o: CommitOracle, text: Text, s: AgentState): (World, Update, Signal) {
    var d := DraftsOf(s);
    var (w1, e, s1) :=
      CommitEntities(w, o, s.owner, Urls(s.documents), d.entities, EntityWork(map[], s.committedEntities, [], []));
    if s1 != Proceed then (w1, NO_UPDATE, s1)
    else
      var (w2, l, s2) :=
        CommitRelationships(w1, o, text, s.owner, d.relationships, e.idMap, LinkWork(s.committedRelationships, []));
      if s2 != Proceed then (w2, NO_UPDATE, s2)
      else
        (w2, NO_UPDATE.(committedEntities := Some(e.committed), committedRelationships := Some(l.committed),
                        created := Some(e.created), skipped := Some(s.skipped + e.skipped + l.skipped)),
         Proceed)
  }

  // ---- enrich ----

  const NEIGHBOURS := 5

  function Candidates(near: seq<Uuid>, own: set<Uuid>): seq<Uuid> {
    var others := Others(near, own);
    if |others| <= NEIGHBOURS then others else others[..NEIGHBOURS]
  }

  function Others(near: seq<Uuid>, own: set<Uuid>): seq<Uuid> {
    if near == [] then []
    else Others(near[..|near| - 1], own) + if near[|near| - 1] in own then [] else [near[|near| - 1]]
  }

  function ValidLinks(text: Text, links: seq<(string, string)>, valid: set<string>): seq<(string, string)> {
    if links == [] then []
    else
      var last := links[|links| - 1];
      ValidLinks(text, links[..|links| - 1], valid) + if last.0 in valid then [last] else []
  }

  function CandidateIds(text: Text, candidates: seq<Uuid>): set<string> {
    set id | id in candidates :: text.canonical(id)
  }

  /** Embed, search, ask the model: an exception in any of them is an empty answer. */
  function LinksFor(w: World, o: CommitOracle, text: Text, own: set<Uuid>): (World, seq<(string, string)>, Signal) {
    var (embedded, s1) := Ask(w, o);
    if s1 != Proceed then (embedded, [], if s1 == Raised then Proceed else s1)
    else
      var (searched, s2) := Ask(embedded, o);
      if s2 != Proceed then (searched, [], if s2 == Raised then Proceed else s2)
      else
        var candidates := Candidates(o.near(embedded.calls), own);
        if candidates == [] then (searched, [], Proceed)
        else
          var (asked, s3) := Ask(searched, o);
          if s3 != Proceed then (asked, [], if s3 == Raised then Proceed else s3)
          else (asked, ValidLinks(text, o.links(searched.calls), CandidateIds(text, candidates)), Proceed)
  }

  /** The targets come out of canonical ids, so they always read back; None would be an exception. */
  ghost function EnrichLinks(
    w: World, o: CommitOracle, text: Text, owner: UserId, entity: DigestEntity, links: seq<(string, string)>, k: LinkWork)
    : (World, LinkWork, Signal)
    decreases links
  {
    if links == [] then (w, k, Proceed)
    else match text.parse(links[0].0)
      case None => (w, k, Raised)
      case Some(target) =>
        var (next, k', signal) :=
          MakeLink(w, o, owner, entity.id, target, links[0].1, k, EnrichRefused(entity.name, links[0].0, NotLinkable));
        if signal != Proceed then (next, k', signal)
        else EnrichLinks(next, o, text, owner, entity, links[1..], k')
  }

  ghost function EnrichAll(
    w: World, o: CommitOracle, text: Text, owner: UserId, own: set<Uuid>, entities: seq<DigestEntity>, k: LinkWork)
    : (World, LinkWork, Signal)
    decreases entities
  {
    if entities == [] then (w, k, Proceed)
    else
      var (asked, links, s1) := LinksFor(w, o, text, own);
      if s1 != Proceed then (asked, k, s1)
      else
        var (next, k', s2) := EnrichLinks(asked, o, text, owner, entities[0], links, k);
        if s2 != Proceed then (next, k', s2) else EnrichAll(next, o, text, owner, own, entities[1..], k')
  }

  ghost function EnrichNode(w: World, o: CommitOracle, text: Text, s: AgentState): (World, Update, Signal) {
    if s.created == [] then (w, NO_UPDATE, Proceed)
    else
      var own := set id | id in s.committedEntities;
      var (next, k, signal) := EnrichAll(w, o, text, s.owner, own, s.created, LinkWork(s.committedRelationships, s.skipped));
      if signal != Proceed then (next, NO_UPDATE, signal)
      else (next, NO_UPDATE.(committedRelationships := Some(k.committed), skipped := Some(k.skipped)), Proceed)
  }
}
