/**
  The graph service over an in-memory store: one method per Cypher statement, and the
  requests and transactions composed of them.
 */
module GraphService {
  import opened Wrappers
  import opened KnowledgeGraph
  import opened OwnedComponent
  import opened GraphInvariants
  import Change = VisibilityChange
  import Sources
  import Runs = GraphRuns

  datatype LinkError =
    | NotLinkable                // 404: an endpoint is missing or invisible, or neither is the caller's
    | PublicEdgePrivateEndpoint  // 422

  class GraphStore {
    var entities: map<Uuid, Entity>
    var edges: map<ElementId, Edge>
    var sources: map<ElementId, Url>
    var cites: map<ElementId, Cite>
    var next: ElementId

    function View(): Graph
      reads this
    {
      Graph(entities, edges, sources, cites, next)
    }

    constructor ()
      ensures View() == EMPTY
    {
      entities, edges, sources, cites, next := map[], map[], map[], map[], 0;
    }

    // ---- Single-statement requests ----

    method CreateEntity(u: UserId, id: Uuid, v: Visibility, name: string, kind: string, attributes: Attributes)
      returns (created: bool)
      modifies this
      ensures created <==> id !in old(entities)
      ensures View() == if created then KnowledgeGraph.CreateEntity(old(View()), u, id, v, name, kind, attributes).value
                        else old(View())
      ensures entities == if created then old(entities)[id := Entity(u, v, name, kind, attributes)] else old(entities)
      ensures edges == old(edges) && sources == old(sources) && cites == old(cites)
    {
      created := id !in entities;
      if created {
        entities := entities[id := Entity(u, v, name, kind, attributes)];
      }
    }

    method DeleteEntity(u: UserId, id: Uuid) returns (found: bool)
      modifies this
      ensures found <==> id in old(entities) && old(entities)[id].owner == u
      ensures View() == KnowledgeGraph.DeleteEntity(old(View()), u, id)
      ensures entities == if found then old(entities) - {id} else old(entities)
      ensures forall k :: k in edges <==> k in old(edges) && !(found && (old(edges)[k].src == id || old(edges)[k].dst == id))
      ensures forall k :: k in cites <==> k in old(cites) && !(found && old(cites)[k].entity == id)
      ensures (forall k | k in edges :: edges[k] == old(edges)[k]) && (forall k | k in cites :: cites[k] == old(cites)[k])
      ensures sources == old(sources) && next == old(next)
    {
      found := Owns(View(), u, id);
      if found {
        entities := entities - {id};
        edges := map k | k in edges && edges[k].src != id && edges[k].dst != id :: edges[k];
        cites := map k | k in cites && cites[k].entity != id :: cites[k];
      }
    }

    method DeleteRelationship(u: UserId, id: Uuid) returns (found: bool)
      modifies this
      ensures found <==> exists k | k in old(edges) :: k !in edges
      ensures View() == KnowledgeGraph.DeleteRelationship(old(View()), u, id)
      ensures entities == old(entities) && sources == old(sources) && cites == old(cites)
      ensures forall k | k in old(edges) && old(edges)[k].src in entities && old(edges)[k].dst in entities ::
        var e := old(edges)[k];
        k !in edges <==> e.id == id && (e.owner == u || entities[e.src].owner == u || entities[e.dst].owner == u)
      ensures forall k | k in edges :: k in old(edges) && edges[k] == old(edges)[k]
    {
      var matched := set k | k in edges && edges[k].id == id && MayUnlink(View(), u, edges[k]);
      found := matched != {};
      assert found ==> exists k :: k in matched;
      assert forall k | k in edges && edges[k].id == id && MayUnlink(View(), u, edges[k]) :: k in matched;
      edges := edges - matched;
    }

    /** The guarded create, and on no row the diagnostic read that tells 404 from 422. */
    method CreateRelationship(u: UserId, id: Uuid, a: Uuid, b: Uuid, kind: string, v: Visibility)
      returns (r: Result<ElementId, LinkError>)
      modifies this
      ensures View() == KnowledgeGraph.CreateRelationship(old(View()), u, id, a, b, kind, v)
      ensures
        var known := a in entities && b in entities;
        var seen := known && (entities[a].visibility == Public || entities[a].owner == u)
                    && (entities[b].visibility == Public || entities[b].owner == u);
        var linkable := seen && (entities[a].owner == u || entities[b].owner == u);
        var narrow := linkable && !(entities[a].visibility == Public && entities[b].visibility == Public);
        && (r.Ok? <==> linkable && (v == Private || !narrow))
        && (r == Err(PublicEdgePrivateEndpoint) <==> v == Public && narrow)
        && (r == Err(NotLinkable) <==> !linkable)
      ensures r.Ok? ==> r.value == old(next)
      ensures edges == if r.Ok? then old(edges)[r.value := Edge(id, u, a, b, kind, v)] else old(edges)
      ensures entities == old(entities) && sources == old(sources) && cites == old(cites)
    {
      if MayLink(View(), u, a, b, v) {
        r := Ok(next);
        edges := edges[next := Edge(id, u, a, b, kind, v)];
        next := next + 1;
      } else {
        var endpoints := Linkable(View(), u, a, b);
        if endpoints && v == Public && (entities[a].visibility != Public || entities[b].visibility != Public) {
          r := Err(PublicEdgePrivateEndpoint);
        } else {
          r := Err(NotLinkable);
        }
      }
    }

    method AttachSources(u: UserId, id: Uuid, urls: seq<Url>)
      requires Inv(View())
      modifies this
      ensures View() == KnowledgeGraph.AttachSources(old(View()), u, id, urls)
    {
      if !Owns(View(), u, id) {
        return;
      }
      var i := 0;
      while i < |urls|
        invariant 0 <= i <= |urls| && Inv(View()) && id in entities
        invariant AttachAll(View(), id, urls[i..]) == AttachAll(old(View()), id, urls)
      {
        MergeOne(id, urls[i]);
        i := i + 1;
      }
    }

    method MergeOne(id: Uuid, url: Url)
      requires Inv(View()) && id in entities
      modifies this
      ensures View() == AttachOne(old(View()), id, url)
      ensures Inv(View()) && entities == old(entities)
    {
      Sources.AttachOneKeepsInv(View(), id, url);
      var s := MergeSourceNode(url);
      MergeCiteEdge(id, s);
    }

    method MergeSourceNode(url: Url) returns (s: ElementId)
      requires Inv(View())
      modifies this
      ensures View() == MergeSource(old(View()), url) && Inv(View())
      ensures url in sources.Values && s == SourceNode(View(), url) && s in sources && sources[s] == url
    {
      Sources.MergeSourceKeepsInv(View(), url);
      if url in sources.Values {
        s :| s in sources && sources[s] == url;
      } else {
        s, sources, next := next, sources[next := url], next + 1;
      }
      Sources.UniqueSourceNode(View(), url, s);
    }

    method MergeCiteEdge(id: Uuid, s: ElementId)
      requires id in entities && s in sources
      modifies this
      ensures View() == MergeCite(old(View()), id, s)
    {
      var found := set c | c in cites && Cites(View(), c, id, s);
      if found == {} {
        assert forall c | c in cites :: Cites(View(), c, id, s) ==> c in found;
        cites, next := cites[next := Cite(id, s, entities[id].visibility)], next + 1;
      } else {
        assert exists c :: c in cites && Cites(View(), c, id, s) by { var c :| c in found; }
        cites := map c | c in cites :: if c in found then cites[c].(visibility := entities[id].visibility) else cites[c];
      }
    }

    // ---- Statements inside a visibility transaction ----

    method SetEntityVisibility(u: UserId, id: Uuid, v: Visibility) returns (changed: Option<bool>)
      modifies this
      ensures
        var owned := id in old(entities) && old(entities)[id].owner == u;
        && changed == (if owned then Some(old(entities)[id].visibility != v) else None)
        && entities == if owned then old(entities)[id := old(entities)[id].(visibility := v)] else old(entities)
      ensures View() == KnowledgeGraph.SetEntityVisibility(old(View()), u, id, v)
    {
      if !Owns(View(), u, id) {
        return None;
      }
      changed := Some(entities[id].visibility != v);
      if changed.value {
        entities := entities[id := entities[id].(visibility := v)];
      }
      assert changed == Some(false) ==> old(entities) == entities[id := entities[id].(visibility := v)];
    }

    method FlipEntities(u: UserId, ids: set<Uuid>, v: Visibility) returns (changed: set<Uuid>)
      modifies this
      ensures changed == Flipped(old(View()), u, ids, v)
      ensures View() == KnowledgeGraph.FlipEntities(old(View()), u, ids, v)
      ensures forall i :: i in changed <==>
        i in old(entities) && i in ids && old(entities)[i].owner == u && old(entities)[i].visibility != v
      ensures entities.Keys == old(entities).Keys
      ensures forall i | i in entities ::
        entities[i] == if i in changed then old(entities)[i].(visibility := v) else old(entities)[i]
    {
      changed := set i | i in entities && i in ids && entities[i].owner == u && entities[i].visibility != v;
      entities := map i | i in entities :: if i in changed then entities[i].(visibility := v) else entities[i];
    }

    method FlipRelationships(u: UserId, ids: set<Uuid>, v: Visibility)
      modifies this
      ensures View() == KnowledgeGraph.FlipRelationships(old(View()), u, ids, v)
      ensures entities == old(entities) && edges.Keys == old(edges).Keys
      ensures forall k | k in edges ::
        var e := old(edges)[k];
        edges[k] == if e.src in entities && e.dst in entities && e.src in ids && e.dst in ids && e.owner == u
                    then e.(visibility := v) else e
    {
      var matched := set k | k in edges && Anchored(View(), edges[k]) && edges[k].src in ids && edges[k].dst in ids
                       && edges[k].owner == u && edges[k].visibility != v;
      edges := map k | k in edges :: if k in matched then edges[k].(visibility := v) else edges[k];
    }

    method SyncSources(u: UserId, ids: set<Uuid>)
      modifies this
      ensures View() == KnowledgeGraph.SyncSources(old(View()), u, ids)
      ensures entities == old(entities) && cites.Keys == old(cites).Keys
      ensures forall k | k in cites ::
        var c := old(cites)[k];
        cites[k] == if c.source in sources && c.entity in ids && c.entity in entities && entities[c.entity].owner == u
                    then c.(visibility := entities[c.entity].visibility) else c
    {
      if ids == {} {
        assert KnowledgeGraph.SyncSources(View(), u, ids).cites == cites;
        return;
      }
      var matched := set k | k in cites && cites[k].source in sources && cites[k].entity in ids && Owns(View(), u, cites[k].entity);
      cites := map k | k in cites :: if k in matched then cites[k].(visibility := entities[cites[k].entity].visibility) else cites[k];
    }

    method CleanIncidentEdges(u: UserId, ids: set<Uuid>)
      modifies this
      ensures View() == Change.CleanIncidentEdges(old(View()), u, ids)
    {
      DemoteOwnedEdges(u, ids);
      RemoveForeignEdges(u, ids);
    }

    method DemoteOwnedEdges(u: UserId, ids: set<Uuid>)
      modifies this
      ensures View() == KnowledgeGraph.DemoteOwnedEdges(old(View()), u, ids)
      ensures entities == old(entities) && edges.Keys == old(edges).Keys
      ensures forall k | k in edges ::
        var e := old(edges)[k];
        edges[k] == if e.src in entities && e.dst in entities && (e.src in ids || e.dst in ids) && e.owner == u
                    then e.(visibility := Private) else e
    {
      var matched := set k | k in edges && Anchored(View(), edges[k]) && (edges[k].src in ids || edges[k].dst in ids)
                       && edges[k].owner == u && edges[k].visibility == Public;
      edges := map k | k in edges :: if k in matched then edges[k].(visibility := Private) else edges[k];
    }

    method RemoveForeignEdges(u: UserId, ids: set<Uuid>)
      modifies this
      ensures View() == KnowledgeGraph.RemoveForeignEdges(old(View()), u, ids)
      ensures entities == old(entities)
      ensures forall k | k in old(edges) ::
        var e := old(edges)[k];
        k !in edges <==> e.src in entities && e.dst in entities && (e.src in ids || e.dst in ids) && e.owner != u
      ensures forall k | k in edges :: k in old(edges) && edges[k] == old(edges)[k]
    {
      var matched := set k | k in edges && Anchored(View(), edges[k]) && (edges[k].src in ids || edges[k].dst in ids)
                       && edges[k].owner != u;
      edges := edges - matched;
    }

    // ---- The walk and the two transactions ----

    /** Breadth-first from start; ends on any graph, because every round but the last sees a new entity. */
    method OwnedComponent(u: UserId, start: Uuid) returns (seen: set<Uuid>)
      ensures seen == Component(View(), u, start)
      ensures start in seen
      ensures start in entities && entities[start].owner == u ==>
        && ClosedUnderOwnEdges(View(), u, seen)
        && forall s | start in s && ClosedUnderOwnEdges(View(), u, s) :: seen <= s
    {
      ghost var g := View();
      ComponentIsLeastClosedSet(g, u, start);
      seen := {start};
      var frontier := {start};
      while frontier != {}
        invariant start in seen && frontier <= seen <= Component(g, u, start)
        invariant forall a, b | a in seen && a !in frontier && Adjacent(g, u, a, b) :: b in seen
        decreases g.entities.Keys - seen, frontier
      {
        var found := OwnedNeighbours(View(), u, frontier) - seen;
        assert found <= Component(g, u, start);
        ghost var before := seen;
        assert forall a, b | a in frontier && Adjacent(g, u, a, b) :: b in before + found;
        seen := seen + found;
        frontier := found;
        assert found != {} ==> g.entities.Keys - seen < g.entities.Keys - before by {
          if x :| x in found { assert x in g.entities.Keys - before && x !in g.entities.Keys - seen; }
        }
      }
      assert ClosedUnderHops(g, u, seen);
      if start in entities && entities[start].owner == u { ComponentFollowsEdges(g, u, start); }
    }

    method SingleVisibility(u: UserId, id: Uuid, v: Visibility) returns (affected: Option<set<Uuid>>)
      modifies this
      ensures (View(), affected) == Change.SingleTx(old(View()), u, id, v)
    {
      var changed := SetEntityVisibility(u, id, v);
      if changed == None {
        return None;
      }
      if changed.value {
        SyncSources(u, {id});
      }
      if v == Private {
        CleanIncidentEdges(u, {id});
      }
      affected := Some(if changed.value then {id} else {});
    }

    method CascadeVisibility(u: UserId, id: Uuid, v: Visibility) returns (affected: Option<set<Uuid>>)
      modifies this
      ensures (View(), affected) == Change.CascadeTx(old(View()), u, id, v)
    {
      if !Owns(View(), u, id) {
        return None;
      }
      var ids := OwnedComponent(u, id);
      var changed := FlipEntities(u, ids, v);
      FlipRelationships(u, ids, v);
      if changed != {} {
        SyncSources(u, changed);
      }
      if v == Private {
        CleanIncidentEdges(u, ids);
      }
      affected := Some(changed);
    }

    /** Both forms of the change, in one transaction. */
    method ChangeVisibility(u: UserId, id: Uuid, v: Visibility, cascade: bool) returns (affected: Option<set<Uuid>>)
      modifies this
      ensures (View(), affected) == Change.ChangeVisibility(old(View()), u, id, v, cascade)
    {
      if cascade {
        affected := CascadeVisibility(u, id, v);
      } else {
        affected := SingleVisibility(u, id, v);
      }
    }

    /** Any writing request: a step of a run, so it keeps every invariant. */
    method Serve(request: Runs.Op)
      requires Inv(View())
      modifies this
      ensures View() == Runs.Step(old(View()), request) && Inv(View())
    {
      Runs.StepKeepsInv(View(), request);
      match request {
        case Create(u, id, v, name, kind, attributes) => var created := CreateEntity(u, id, v, name, kind, attributes);
        case Link(u, id, src, dst, kind, v) => var linked := CreateRelationship(u, id, src, dst, kind, v);
        case Delete(u, id) => var deleted := DeleteEntity(u, id);
        case Unlink(u, id) => var unlinked := DeleteRelationship(u, id);
        case Change(u, id, v, cascade) => var affected := ChangeVisibility(u, id, v, cascade);
        case Attach(u, id, urls) => AttachSources(u, id, urls);
      }
    }

    method ListGraph(u: UserId) returns (view: GraphView)
      ensures view == KnowledgeGraph.ListGraph(View(), u)
      ensures forall i :: i in view.entities <==> i in entities && (entities[i].visibility == Public || entities[i].owner == u)
      ensures forall i | i in view.entities ::
        && view.entities[i].entity == entities[i]
        && forall url :: url in view.entities[i].sources <==>
             exists k | k in cites :: cites[k].entity == i && cites[k].source in sources && sources[cites[k].source] == url
      ensures forall k | k in edges ::
        var e := edges[k];
        k in view.relationships <==>
          e.src in view.entities && e.dst in view.entities && (e.visibility == Public || e.owner == u)
      ensures forall k | k in view.relationships :: k in edges && view.relationships[k] == edges[k]
      ensures EdgeInv(View()) ==>
        view.relationships == map k | k in edges && (edges[k].visibility == Public || edges[k].owner == u) :: edges[k]
    {
      view := KnowledgeGraph.ListGraph(View(), u);
      if EdgeInv(View()) {
        forall k | k in edges ensures ReadableEdge(View(), u, edges[k]) <==> edges[k].visibility == Public || edges[k].owner == u {
          assert Linkable(View(), edges[k].owner, edges[k].src, edges[k].dst);
        }
      }
    }
  }
}
