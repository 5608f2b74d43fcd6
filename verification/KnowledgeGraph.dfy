/**
  The shared knowledge graph and the statements that read and write it, one function per
  Cypher file.  Many users share one graph; every entity and every RELATED_TO edge has an
  owner and a visibility of its own.

  An undirected Cypher pattern between two entities matches an edge whichever way it points,
  and matches a self-loop once, so "touches" below means "is one of the two endpoints".
  Timestamps are not modelled.
 */
module KnowledgeGraph {
  import opened Wrappers

  type UserId = nat
  type Uuid = nat
  /** The database's own element ids, allocated in order and never reused. */
  type ElementId = nat
  type Url = string
  /** Values are JSON, kept as their text. */
  type Attributes = map<string, string>

  datatype Visibility = Private | Public

  datatype Entity = Entity(owner: UserId, visibility: Visibility, name: string, kind: string, attributes: Attributes)

  /** A RELATED_TO edge.  `id` is the application's id property, which the database does not keep unique. */
  datatype Edge = Edge(id: Uuid, owner: UserId, src: Uuid, dst: Uuid, kind: string, visibility: Visibility)

  /** A SOURCED_FROM edge from an entity to a Source node. */
  datatype Cite = Cite(entity: Uuid, source: ElementId, visibility: Visibility)

  datatype Graph = Graph(
    entities: map<Uuid, Entity>,
    edges: map<ElementId, Edge>,
    sources: map<ElementId, Url>,
    cites: map<ElementId, Cite>,
    next: ElementId)

  const EMPTY := Graph(map[], map[], map[], map[], 0)

  // ---- Who may see and own what ----

  predicate Owns(g: Graph, u: UserId, i: Uuid) {
    i in g.entities && g.entities[i].owner == u
  }

  predicate IsPublic(g: Graph, i: Uuid) {
    i in g.entities && g.entities[i].visibility == Public
  }

  predicate Sees(g: Graph, u: UserId, i: Uuid) {
    IsPublic(g, i) || Owns(g, u, i)
  }

  predicate Touches(e: Edge, ids: set<Uuid>) {
    e.src in ids || e.dst in ids
  }

  predicate Inside(e: Edge, ids: set<Uuid>) {
    e.src in ids && e.dst in ids
  }

  /** Both endpoints are entities: a RELATED_TO pattern between two Entity nodes matches. */
  predicate Anchored(g: Graph, e: Edge) {
    e.src in g.entities && e.dst in g.entities
  }

  // ---- Creating and linking ----

  /** None is the uniqueness constraint on Entity.id refusing a second node with this id. */
  function CreateEntity(g: Graph, u: UserId, id: Uuid, v: Visibility, name: string, kind: string, attributes: Attributes)
    : Option<Graph>
  {
    if id in g.entities then None
    else Some(g.(entities := g.entities[id := Entity(u, v, name, kind, attributes)]))
  }

  predicate Linkable(g: Graph, u: UserId, a: Uuid, b: Uuid) {
    Sees(g, u, a) && Sees(g, u, b) && (Owns(g, u, a) || Owns(g, u, b))
  }

  predicate MayLink(g: Graph, u: UserId, a: Uuid, b: Uuid, v: Visibility) {
    Linkable(g, u, a, b) && (v == Private || (IsPublic(g, a) && IsPublic(g, b)))
  }

  /** The guarded CREATE: no row, and no change, when the guard fails. */
  function CreateRelationship(g: Graph, u: UserId, id: Uuid, a: Uuid, b: Uuid, kind: string, v: Visibility): Graph {
    if MayLink(g, u, a, b, v)
    then g.(edges := g.edges[g.next := Edge(id, u, a, b, kind, v)], next := g.next + 1)
    else g
  }

  // ---- Deleting ----

  function DeleteEntity(g: Graph, u: UserId, id: Uuid): Graph {
    if !Owns(g, u, id) then g
    else g.(entities := map i | i in g.entities && i != id :: g.entities[i],
            edges := map k | k in g.edges && !Touches(g.edges[k], {id}) :: g.edges[k],
            cites := map k | k in g.cites && g.cites[k].entity != id :: g.cites[k])
  }

  predicate MayUnlink(g: Graph, u: UserId, e: Edge) {
    Anchored(g, e) && (e.owner == u || Owns(g, u, e.src) || Owns(g, u, e.dst))
  }

  function DeleteRelationship(g: Graph, u: UserId, id: Uuid): Graph {
    g.(edges := map k | k in g.edges && !(g.edges[k].id == id && MayUnlink(g, u, g.edges[k])) :: g.edges[k])
  }

  // ---- Statements of a visibility change ----

  function SetEntityVisibility(g: Graph, u: UserId, id: Uuid, v: Visibility): Graph {
    if Owns(g, u, id) then g.(entities := g.entities[id := g.entities[id].(visibility := v)]) else g
  }

  /** The ids flip_entities matches, and so the ids it returns. */
  function Flipped(g: Graph, u: UserId, ids: set<Uuid>, v: Visibility): set<Uuid> {
    set i | i in g.entities && i in ids && g.entities[i].owner == u && g.entities[i].visibility != v
  }

  function FlipEntities(g: Graph, u: UserId, ids: set<Uuid>, v: Visibility): Graph {
    g.(entities := map i | i in g.entities ::
         if i in ids && g.entities[i].owner == u && g.entities[i].visibility != v
         then g.entities[i].(visibility := v) else g.entities[i])
  }

  function FlipRelationships(g: Graph, u: UserId, ids: set<Uuid>, v: Visibility): Graph {
    g.(edges := map k | k in g.edges ::
         if Anchored(g, g.edges[k]) && Inside(g.edges[k], ids) && g.edges[k].owner == u && g.edges[k].visibility != v
         then g.edges[k].(visibility := v) else g.edges[k])
  }

  function SyncSources(g: Graph, u: UserId, ids: set<Uuid>): Graph {
    g.(cites := map k | k in g.cites ::
         if g.cites[k].source in g.sources && g.cites[k].entity in ids && Owns(g, u, g.cites[k].entity)
         then g.cites[k].(visibility := g.entities[g.cites[k].entity].visibility) else g.cites[k])
  }

  function DemoteOwnedEdges(g: Graph, u: UserId, ids: set<Uuid>): Graph {
    g.(edges := map k | k in g.edges ::
         if Anchored(g, g.edges[k]) && Touches(g.edges[k], ids) && g.edges[k].owner == u
            && g.edges[k].visibility == Public
         then g.edges[k].(visibility := Private) else g.edges[k])
  }

  function RemoveForeignEdges(g: Graph, u: UserId, ids: set<Uuid>): Graph {
    g.(edges := map k | k in g.edges
         && !(Anchored(g, g.edges[k]) && Touches(g.edges[k], ids) && g.edges[k].owner != u) :: g.edges[k])
  }

  // ---- One hop of the caller's own sub-graph ----

  predicate Joins(e: Edge, a: Uuid, b: Uuid) {
    (e.src == a && e.dst == b) || (e.src == b && e.dst == a)
  }

  predicate Adjacent(g: Graph, u: UserId, a: Uuid, b: Uuid) {
    a in g.entities && Owns(g, u, b) && exists k | k in g.edges :: g.edges[k].owner == u && Joins(g.edges[k], a, b)
  }

  function OwnedNeighbours(g: Graph, u: UserId, ids: set<Uuid>): set<Uuid> {
    set b | b in g.entities && exists a | a in ids :: Adjacent(g, u, a, b)
  }

  // ---- Reads ----

  datatype EntityRow = EntityRow(entity: Entity, sources: set<Url>)

  /** What a caller gets back; the order by creation time is not modelled. */
  datatype GraphView = GraphView(entities: map<Uuid, EntityRow>, relationships: map<ElementId, Edge>)

  function SourcesOf(g: Graph, i: Uuid): set<Url> {
    set k | k in g.cites && g.cites[k].entity == i && g.cites[k].source in g.sources :: g.sources[g.cites[k].source]
  }

  /** The three-part filter of list_visible_relationships. */
  predicate ReadableEdge(g: Graph, u: UserId, e: Edge) {
    Sees(g, u, e.src) && Sees(g, u, e.dst) && (e.visibility == Public || e.owner == u)
  }

  function ListGraph(g: Graph, u: UserId): GraphView {
    GraphView(map i | i in g.entities && Sees(g, u, i) :: EntityRow(g.entities[i], SourcesOf(g, i)),
              map k | k in g.edges && ReadableEdge(g, u, g.edges[k]) :: g.edges[k])
  }

  // ---- Attaching sources ----

  /** MERGE (s:Source {url}): the node if there is one, a fresh one otherwise. */
  function MergeSource(g: Graph, url: Url): Graph {
    if url in g.sources.Values then g
    else g.(sources := g.sources[g.next := url], next := g.next + 1)
  }

  predicate Cites(g: Graph, k: ElementId, id: Uuid, s: ElementId) {
    k in g.cites && g.cites[k].entity == id && g.cites[k].source == s
  }

  /** MERGE (e)-[r:SOURCED_FROM]->(s) SET r.visibility = e.visibility, for one source node. */
  function MergeCite(g: Graph, id: Uuid, s: ElementId): Graph
    requires id in g.entities
  {
    var v := g.entities[id].visibility;
    if exists k | k in g.cites :: Cites(g, k, id, s)
    then g.(cites := map k | k in g.cites ::
              if Cites(g, k, id, s) then g.cites[k].(visibility := v) else g.cites[k])
    else g.(cites := g.cites[g.next := Cite(id, s, v)], next := g.next + 1)
  }

  /** The node MERGE binds to s; with unique urls there is only one to choose. */
  ghost function SourceNode(g: Graph, url: Url): ElementId
    requires url in g.sources.Values
  {
    var s :| s in g.sources && g.sources[s] == url; s
  }

  ghost function AttachOne(g: Graph, id: Uuid, url: Url): Graph
    requires id in g.entities
  {
    var merged := MergeSource(g, url);
    assert url in merged.sources.Values by { assert url in g.sources.Values || merged.sources[g.next] == url; }
    MergeCite(merged, id, SourceNode(merged, url))
  }

  /** UNWIND: one row a url, in order. */
  ghost function AttachAll(g: Graph, id: Uuid, urls: seq<Url>): Graph
    requires id in g.entities
    decreases urls
  {
    if urls == [] then g else AttachAll(AttachOne(g, id, urls[0]), id, urls[1..])
  }

  ghost function AttachSources(g: Graph, u: UserId, id: Uuid, urls: seq<Url>): Graph {
    if Owns(g, u, id) then AttachAll(g, id, urls) else g
  }
}
