/** change_visibility: the two transactions, each a sequence of statements, and what each one means. */
module VisibilityChange {
  import opened Wrappers
  import opened KnowledgeGraph
  import opened OwnedComponent
  import opened GraphInvariants

  function CleanIncidentEdges(g: Graph, u: UserId, ids: set<Uuid>): Graph {
    RemoveForeignEdges(DemoteOwnedEdges(g, u, ids), u, ids)
  }

  /** None is the 404: the caller owns no such entity.  The set is the reported affected ids. */
  function SingleTx(g: Graph, u: UserId, id: Uuid, v: Visibility): (Graph, Option<set<Uuid>>) {
    if !Owns(g, u, id) then (g, None)
    else
      var changed := g.entities[id].visibility != v;
      var updated := SetEntityVisibility(g, u, id, v);
      var synced := if changed then SyncSources(updated, u, {id}) else updated;
      (if v == Private then CleanIncidentEdges(synced, u, {id}) else synced,
       Some(if changed then {id} else {}))
  }

  ghost function CascadeTx(g: Graph, u: UserId, id: Uuid, v: Visibility): (Graph, Option<set<Uuid>>) {
    if !Owns(g, u, id) then (g, None)
    else
      var ids := Component(g, u, id);
      var changed := Flipped(g, u, ids, v);
      var flipped := FlipRelationships(FlipEntities(g, u, ids, v), u, ids, v);
      var synced := if changed != {} then SyncSources(flipped, u, changed) else flipped;
      (if v == Private then CleanIncidentEdges(synced, u, ids) else synced, Some(changed))
  }

  ghost function ChangeVisibility(g: Graph, u: UserId, id: Uuid, v: Visibility, cascade: bool)
    : (Graph, Option<set<Uuid>>)
  {
    if cascade then CascadeTx(g, u, id, v) else SingleTx(g, u, id, v)
  }

  // ---- The meaning: one simultaneous assignment ----

  /** Edges the change removes: only going private, and only other users' edges on the changed entities. */
  predicate Severed(e: Edge, u: UserId, ids: set<Uuid>, v: Visibility) {
    v == Private && e.owner != u && Touches(e, ids)
  }

  /**
    Edges the change sets to v: the caller's own.  Going private that is every edge on the
    changed entities; going public only a cascade does it, and only wholly inside.
   */
  predicate Follows(e: Edge, u: UserId, ids: set<Uuid>, v: Visibility, cascade: bool) {
    e.owner == u && if v == Private then Touches(e, ids) else cascade && Inside(e, ids)
  }

  function EntitiesAfter(g: Graph, ids: set<Uuid>, v: Visibility): map<Uuid, Entity> {
    map i | i in g.entities :: if i in ids then g.entities[i].(visibility := v) else g.entities[i]
  }

  function EdgesAfter(g: Graph, u: UserId, ids: set<Uuid>, v: Visibility, cascade: bool): map<ElementId, Edge> {
    map k | k in g.edges && !Severed(g.edges[k], u, ids, v) ::
      if Follows(g.edges[k], u, ids, v, cascade) then g.edges[k].(visibility := v) else g.edges[k]
  }

  function CitesAfter(g: Graph, ids: set<Uuid>, v: Visibility): map<ElementId, Cite> {
    map k | k in g.cites :: if g.cites[k].entity in ids then g.cites[k].(visibility := v) else g.cites[k]
  }

  function Settled(g: Graph, u: UserId, ids: set<Uuid>, v: Visibility, cascade: bool): Graph {
    Graph(EntitiesAfter(g, ids, v), EdgesAfter(g, u, ids, v, cascade), g.sources, CitesAfter(g, ids, v), g.next)
  }

  /** The set of entities a change is about. */
  ghost function Scope(g: Graph, u: UserId, id: Uuid, cascade: bool): set<Uuid> {
    if cascade then Component(g, u, id) else {id}
  }

  lemma ScopeIsOwned(g: Graph, u: UserId, id: Uuid, cascade: bool)
    requires Owns(g, u, id)
    ensures id in Scope(g, u, id, cascade)
    ensures forall i | i in Scope(g, u, id, cascade) :: Owns(g, u, i)
  {
    ComponentIsLeastClosedSet(g, u, id);
    ComponentIsOwned(g, u, id);
  }

  lemma CleanedEdges(g: Graph, u: UserId, ids: set<Uuid>)
    requires EdgesAnchored(g)
    ensures CleanIncidentEdges(g, u, ids) == g.(edges := EdgesAfter(g, u, ids, Private, false))
  {
    var d := DemoteOwnedEdges(g, u, ids);
    assert forall k | k in g.edges ::
        d.edges[k].src == g.edges[k].src && d.edges[k].dst == g.edges[k].dst && d.edges[k].owner == g.edges[k].owner;
  }

  lemma SyncedCites(g: Graph, h: Graph, u: UserId, ids: set<Uuid>, changed: set<Uuid>, v: Visibility)
    requires CitesAnchored(g) && CitesMirror(g)
    requires h.cites == g.cites && h.sources == g.sources
    requires forall i | i in ids :: Owns(h, u, i) && h.entities[i].visibility == v
    requires changed == set i | i in ids && i in g.entities && g.entities[i].visibility != v
    ensures SyncSources(h, u, changed) == h.(cites := CitesAfter(g, ids, v))
  {
  }

  /** The single change is the simultaneous assignment over {id}. */
  lemma SingleMeaning(g: Graph, u: UserId, id: Uuid, v: Visibility)
    requires Inv(g) && Owns(g, u, id)
    ensures SingleTx(g, u, id, v).0 == Settled(g, u, {id}, v, false)
  {
    var ids := {id};
    var updated := SetEntityVisibility(g, u, id, v);
    var changed := set i | i in ids && i in g.entities && g.entities[i].visibility != v;
    assert updated.entities == EntitiesAfter(g, ids, v);
    SyncedCites(g, updated, u, ids, changed, v);
    var synced := updated.(cites := CitesAfter(g, ids, v));
    assert SyncSources(updated, u, {}) == updated;
    assert changed == if g.entities[id].visibility != v then {id} else {};
    SettledEdges(g, synced, u, ids, v);
  }

  lemma SettledEdges(g: Graph, h: Graph, u: UserId, ids: set<Uuid>, v: Visibility)
    requires EdgesAnchored(g) && h.edges == g.edges && h.entities.Keys == g.entities.Keys
    ensures (if v == Private then CleanIncidentEdges(h, u, ids) else h) == h.(edges := EdgesAfter(g, u, ids, v, false))
  {
    if v == Private { CleanedEdges(h, u, ids); }
    assert EdgesAfter(h, u, ids, v, false) == EdgesAfter(g, u, ids, v, false);
    assert v == Public ==> EdgesAfter(g, u, ids, v, false) == g.edges;
  }

  /** Going private, flipping the inside edges first adds nothing: the clean-up demotes them anyway. */
  lemma CascadedEdges(g: Graph, h: Graph, u: UserId, ids: set<Uuid>, v: Visibility)
    requires EdgesAnchored(g) && h.entities.Keys == g.entities.Keys
    requires h.edges.Keys == g.edges.Keys
    requires forall k | k in g.edges ::
        h.edges[k] == if g.edges[k].owner == u && Inside(g.edges[k], ids) then g.edges[k].(visibility := v) else g.edges[k]
    ensures (if v == Private then CleanIncidentEdges(h, u, ids) else h) == h.(edges := EdgesAfter(g, u, ids, v, true))
  {
    if v == Private {
      CleanedEdges(h, u, ids);
      forall k | k in g.edges ensures Severed(h.edges[k], u, ids, v) == Severed(g.edges[k], u, ids, v) {}
      assert EdgesAfter(h, u, ids, v, false) == EdgesAfter(g, u, ids, v, true);
    } else {
      assert h.edges == EdgesAfter(g, u, ids, v, true);
    }
  }

  lemma FlippedEdges(f: Graph, u: UserId, ids: set<Uuid>, v: Visibility)
    requires EdgesAnchored(f)
    ensures forall k | k in f.edges ::
        (FlipRelationships(f, u, ids, v).edges[k]
         == if f.edges[k].owner == u && Inside(f.edges[k], ids) then f.edges[k].(visibility := v) else f.edges[k])
  {
  }

  /** The cascade's four or five statements are the simultaneous assignment over the component. */
  lemma CascadeMeaning(g: Graph, u: UserId, id: Uuid, v: Visibility)
    requires Inv(g) && Owns(g, u, id)
    ensures CascadeTx(g, u, id, v).0 == Settled(g, u, Component(g, u, id), v, true)
  {
    ComponentIsOwned(g, u, id);
    CascadeStatements(g, u, Component(g, u, id), v);
  }

  lemma FlipsMean(g: Graph, u: UserId, ids: set<Uuid>, v: Visibility)
    requires Inv(g) && forall i | i in ids :: Owns(g, u, i)
    ensures
      var r := FlipRelationships(FlipEntities(g, u, ids, v), u, ids, v);
      && r == Graph(EntitiesAfter(g, ids, v), r.edges, g.sources, g.cites, g.next) && r.edges.Keys == g.edges.Keys
      && (forall k | k in g.edges ::
            (r.edges[k] == if g.edges[k].owner == u && Inside(g.edges[k], ids) then g.edges[k].(visibility := v) else g.edges[k]))
  {
    var f := FlipEntities(g, u, ids, v);
    assert f.entities == EntitiesAfter(g, ids, v);
    FlippedEdges(f, u, ids, v);
  }

  lemma CascadeStatements(g: Graph, u: UserId, ids: set<Uuid>, v: Visibility)
    requires Inv(g) && forall i | i in ids :: Owns(g, u, i)
    ensures
      var changed := Flipped(g, u, ids, v);
      var flipped := FlipRelationships(FlipEntities(g, u, ids, v), u, ids, v);
      var synced := if changed != {} then SyncSources(flipped, u, changed) else flipped;
      (if v == Private then CleanIncidentEdges(synced, u, ids) else synced) == Settled(g, u, ids, v, true)
  {
    var changed := Flipped(g, u, ids, v);
    var r := FlipRelationships(FlipEntities(g, u, ids, v), u, ids, v);
    FlipsMean(g, u, ids, v);
    SyncedCites(g, r, u, ids, changed, v);
    var synced := r.(cites := CitesAfter(g, ids, v));
    assert SyncSources(r, u, {}) == r by { assert SyncSources(r, u, {}).cites == r.cites; }
    CascadedEdges(g, synced, u, ids, v);
  }

  lemma ChangeMeaning(g: Graph, u: UserId, id: Uuid, v: Visibility, cascade: bool)
    requires Inv(g) && Owns(g, u, id)
    ensures ChangeVisibility(g, u, id, v, cascade).0 == Settled(g, u, Scope(g, u, id, cascade), v, cascade)
  {
    if cascade { CascadeMeaning(g, u, id, v); } else { SingleMeaning(g, u, id, v); }
  }
}
