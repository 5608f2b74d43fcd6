/** What a visibility change promises, single or cascading, and the algebra of cascades. */
module VisibilityLaws {
  import opened Wrappers
  import opened KnowledgeGraph
  import opened OwnedComponent
  import opened GraphInvariants
  import opened VisibilityChange

  lemma SettledKeepsEdgeInv(g: Graph, u: UserId, ids: set<Uuid>, v: Visibility, cascade: bool)
    requires Inv(g) && forall i | i in ids :: Owns(g, u, i)
    ensures EdgeInv(Settled(g, u, ids, v, cascade))
  {
    var h := Settled(g, u, ids, v, cascade);
    forall k | k in h.edges
      ensures Linkable(h, h.edges[k].owner, h.edges[k].src, h.edges[k].dst)
      ensures h.edges[k].visibility == Public ==> IsPublic(h, h.edges[k].src) && IsPublic(h, h.edges[k].dst)
    {
      assert Linkable(g, g.edges[k].owner, g.edges[k].src, g.edges[k].dst);
    }
  }

  lemma SettledKeepsInv(g: Graph, u: UserId, ids: set<Uuid>, v: Visibility, cascade: bool)
    requires Inv(g) && forall i | i in ids :: Owns(g, u, i)
    ensures Inv(Settled(g, u, ids, v, cascade))
  {
    SettledKeepsEdgeInv(g, u, ids, v, cascade);
  }

  lemma ChangeKeepsInv(g: Graph, u: UserId, id: Uuid, v: Visibility, cascade: bool)
    requires Inv(g)
    ensures Inv(ChangeVisibility(g, u, id, v, cascade).0)
  {
    if Owns(g, u, id) {
      ChangeMeaning(g, u, id, v, cascade);
      ScopeIsOwned(g, u, id, cascade);
      SettledKeepsInv(g, u, Scope(g, u, id, cascade), v, cascade);
    }
  }

  /** Everything about a successful change that a caller can observe. */
  ghost predicate Changed(g: Graph, h: Graph, u: UserId, ids: set<Uuid>, v: Visibility, cascade: bool) {
    // every entity in scope, and for a cascade every owned edge inside it, is at v
    && h.entities.Keys == g.entities.Keys
    && (forall i | i in ids && i in h.entities :: h.entities[i].visibility == v)
    && (cascade ==> forall k | k in h.edges && h.edges[k].owner == u && Inside(h.edges[k], ids) :: h.edges[k].visibility == v)
    // going private, nothing public and nothing of another user is left on the scope
    && (v == Private ==> forall k | k in h.edges && Touches(h.edges[k], ids) ::
          h.edges[k].visibility == Private && h.edges[k].owner == u)
    // no owned edge is ever removed; going public, only a cascade changes an edge, and only an owned one inside the scope
    && (forall k | k in g.edges && g.edges[k].owner == u :: k in h.edges)
    && (v == Public ==> forall k | k in h.edges && !(cascade && h.edges[k].owner == u && Inside(h.edges[k], ids)) ::
          k in g.edges && h.edges[k] == g.edges[k])
    && (forall k | k in h.cites && h.cites[k].entity in ids :: h.cites[k].visibility == v)
    // nothing but a visibility ever changes on what survives, and going public everything survives
    && h.edges.Keys <= g.edges.Keys && (v == Public ==> h.edges.Keys == g.edges.Keys)
    && (forall i | i in g.entities :: h.entities[i] == g.entities[i].(visibility := h.entities[i].visibility))
    && (forall k | k in h.edges :: h.edges[k] == g.edges[k].(visibility := h.edges[k].visibility))
    // what does not touch the scope is untouched
    && (forall i | i in g.entities && i !in ids :: h.entities[i] == g.entities[i])
    && (forall k | k in g.edges && !Touches(g.edges[k], ids) :: k in h.edges && h.edges[k] == g.edges[k])
    && h.sources == g.sources && h.next == g.next && h.cites.Keys == g.cites.Keys
    && (forall k | k in g.cites && g.cites[k].entity !in ids :: h.cites[k] == g.cites[k])
  }

  lemma SettledIsChanged(g: Graph, u: UserId, ids: set<Uuid>, v: Visibility, cascade: bool)
    requires EdgesNotWider(g) && forall i | i in ids :: Owns(g, u, i)
    ensures Changed(g, Settled(g, u, ids, v, cascade), u, ids, v, cascade)
  {
  }

  lemma AffectedIsFlipped(g: Graph, u: UserId, id: Uuid, v: Visibility, cascade: bool)
    requires Owns(g, u, id)
    ensures ChangeVisibility(g, u, id, v, cascade).1 == Some(Flipped(g, u, Scope(g, u, id, cascade), v))
  {
    if !cascade {
      assert SingleTx(g, u, id, v).1.value == Flipped(g, u, {id}, v);
    }
  }

  lemma FlippedIsDifference(g: Graph, u: UserId, ids: set<Uuid>, v: Visibility)
    requires forall i | i in ids :: Owns(g, u, i)
    ensures Flipped(g, u, ids, v)
      == set i | i in g.entities && g.entities[i].visibility != EntitiesAfter(g, ids, v)[i].visibility
  {
  }

  /** The effect of a change, and the reported ids are exactly the entities whose visibility differs. */
  lemma ChangeEffect(g: Graph, u: UserId, id: Uuid, v: Visibility, cascade: bool)
    requires Inv(g)
    ensures
      var (h, affected) := ChangeVisibility(g, u, id, v, cascade);
      && h.entities.Keys == g.entities.Keys
      && (affected == None <==> !Owns(g, u, id))
      && (affected == None ==> h == g)
      && (affected.Some? ==>
            && Changed(g, h, u, Scope(g, u, id, cascade), v, cascade)
            && affected.value == set i | i in g.entities && g.entities[i].visibility != h.entities[i].visibility)
  {
    if Owns(g, u, id) {
      var ids := Scope(g, u, id, cascade);
      ChangeMeaning(g, u, id, v, cascade);
      ScopeIsOwned(g, u, id, cascade);
      SettledIsChanged(g, u, ids, v, cascade);
      AffectedIsFlipped(g, u, id, v, cascade);
      FlippedIsDifference(g, u, ids, v);
    }
  }

  // ---- The component does not move ----

  /** Nobody's visibility change alters the sub-graph any user's cascade would walk. */
  lemma ComponentStable(g: Graph, u: UserId, id: Uuid, v: Visibility, cascade: bool, w: UserId, start: Uuid)
    requires Inv(g) && Owns(g, w, start)
    ensures Owns(ChangeVisibility(g, u, id, v, cascade).0, w, start)
    ensures Component(ChangeVisibility(g, u, id, v, cascade).0, w, start) == Component(g, w, start)
  {
    if Owns(g, u, id) {
      ChangeMeaning(g, u, id, v, cascade);
      ScopeIsOwned(g, u, id, cascade);
      SettledSameHops(g, u, Scope(g, u, id, cascade), v, cascade, w);
      SameHopsSameComponent(g, ChangeVisibility(g, u, id, v, cascade).0, w, start);
    }
  }

  lemma SettledSameHops(g: Graph, u: UserId, ids: set<Uuid>, v: Visibility, cascade: bool, w: UserId)
    requires forall i | i in ids :: Owns(g, u, i)
    ensures SameOwnHops(g, Settled(g, u, ids, v, cascade), w)
  {
    var h := Settled(g, u, ids, v, cascade);
    forall a, b | Owns(g, w, a) ensures Adjacent(g, w, a, b) <==> Adjacent(h, w, a, b) {
      if Adjacent(g, w, a, b) {
        var k :| k in g.edges && g.edges[k].owner == w && Joins(g.edges[k], a, b);
        // an edge w owns between two entities w owns is foreign to nobody who could sever it
        assert !Severed(g.edges[k], u, ids, v);
        assert k in h.edges && Joins(h.edges[k], a, b);
      }
      if Adjacent(h, w, a, b) {
        var k :| k in h.edges && h.edges[k].owner == w && Joins(h.edges[k], a, b);
        assert k in g.edges && Joins(g.edges[k], a, b);
      }
    }
  }

  // ---- Cascade algebra ----

  lemma SettledTwice(g: Graph, u: UserId, ids: set<Uuid>, first: Visibility, v: Visibility)
    requires v == Private || first == v
    ensures Settled(Settled(g, u, ids, first, true), u, ids, v, true) == Settled(g, u, ids, v, true)
  {
    var h := Settled(g, u, ids, first, true);
    assert EntitiesAfter(h, ids, v) == EntitiesAfter(g, ids, v);
    assert CitesAfter(h, ids, v) == CitesAfter(g, ids, v);
    assert EdgesAfter(h, u, ids, v, true) == EdgesAfter(g, u, ids, v, true);
  }

  /** A cascade absorbs an earlier one from the same entity: the same one, or one that went public. */
  lemma CascadeAbsorbs(g: Graph, u: UserId, id: Uuid, first: Visibility, v: Visibility)
    requires Inv(g) && (v == Private || first == v)
    ensures CascadeTx(CascadeTx(g, u, id, first).0, u, id, v).0 == CascadeTx(g, u, id, v).0
  {
    if Owns(g, u, id) {
      var h := CascadeTx(g, u, id, first).0;
      ChangeKeepsInv(g, u, id, first, true);
      ComponentStable(g, u, id, first, true, u, id);
      CascadeMeaning(g, u, id, first);
      CascadeMeaning(g, u, id, v);
      CascadeMeaning(h, u, id, v);
      SettledTwice(g, u, Component(g, u, id), first, v);
    }
  }

  lemma CascadeIdempotent(g: Graph, u: UserId, id: Uuid, v: Visibility)
    requires Inv(g) && Owns(g, u, id)
    ensures
      var h := CascadeTx(g, u, id, v).0;
      CascadeTx(h, u, id, v) == (h, Some({}))
  {
    var h := CascadeTx(g, u, id, v).0;
    CascadeAbsorbs(g, u, id, v, v);
    ComponentStable(g, u, id, v, true, u, id);
    ChangeKeepsInv(g, u, id, v, true);
    ChangeEffect(h, u, id, v, true);
    var affected := CascadeTx(h, u, id, v).1.value;
    assert affected == {};
  }

  /** Edges that going private takes something from which going public does not give back. */
  predicate GivenBack(e: Edge, u: UserId, ids: set<Uuid>) {
    Touches(e, ids) ==> e.owner == u && (Inside(e, ids) || e.visibility == Private)
  }

  lemma SettledBack(g: Graph, u: UserId, ids: set<Uuid>)
    ensures Settled(Settled(g, u, ids, Private, true), u, ids, Public, true) == Settled(g, u, ids, Public, true)
      <==> forall k | k in g.edges :: GivenBack(g.edges[k], u, ids)
  {
    var h := Settled(g, u, ids, Private, true);
    assert EntitiesAfter(h, ids, Public) == EntitiesAfter(g, ids, Public);
    assert CitesAfter(h, ids, Public) == CitesAfter(g, ids, Public);
    var there, back := EdgesAfter(g, u, ids, Public, true), EdgesAfter(h, u, ids, Public, true);
    if forall k | k in g.edges :: GivenBack(g.edges[k], u, ids) {
      assert there == back;
    } else {
      var k :| k in g.edges && !GivenBack(g.edges[k], u, ids);
      assert k in there && (k !in back || there[k] != back[k]);
    }
  }

  /**
    Public after private equals public alone exactly when every edge on the component is the
    caller's own and lies inside it or is private: other users' edges are gone for good, and the
    caller's public edges to other users' entities stay private.
   */
  lemma PublicAfterPrivate(g: Graph, u: UserId, id: Uuid)
    requires Inv(g) && Owns(g, u, id)
    ensures CascadeTx(CascadeTx(g, u, id, Private).0, u, id, Public).0 == CascadeTx(g, u, id, Public).0
      <==> forall k | k in g.edges :: GivenBack(g.edges[k], u, Component(g, u, id))
  {
    var h := CascadeTx(g, u, id, Private).0;
    ChangeKeepsInv(g, u, id, Private, true);
    ComponentStable(g, u, id, Private, true, u, id);
    CascadeMeaning(g, u, id, Private);
    CascadeMeaning(g, u, id, Public);
    CascadeMeaning(h, u, id, Public);
    SettledBack(g, u, Component(g, u, id));
  }

  // ---- What the invariants buy the reads and the clean-up ----

  /** On a reachable graph the edge filter's two endpoint conjuncts add nothing. */
  lemma EdgeFilterIsLastConjunct(g: Graph, u: UserId, k: ElementId)
    requires EdgeInv(g) && k in g.edges
    ensures ReadableEdge(g, u, g.edges[k]) <==> g.edges[k].visibility == Public || g.edges[k].owner == u
  {
    assert Linkable(g, g.edges[k].owner, g.edges[k].src, g.edges[k].dst);
  }

  /** Making a private entity private again still runs the clean-up, which then finds nothing. */
  lemma PrivateAgainIsNoChange(g: Graph, u: UserId, id: Uuid)
    requires Inv(g) && Owns(g, u, id) && !IsPublic(g, id)
    ensures SingleTx(g, u, id, Private) == (g, Some({}))
  {
    SingleMeaning(g, u, id, Private);
    forall k | k in g.edges && Touches(g.edges[k], {id})
      ensures g.edges[k].owner == u && g.edges[k].visibility == Private
    {
      assert Linkable(g, g.edges[k].owner, g.edges[k].src, g.edges[k].dst);
    }
    assert EntitiesAfter(g, {id}, Private) == g.entities;
    assert EdgesAfter(g, u, {id}, Private, false) == g.edges;
    assert CitesAfter(g, {id}, Private) == g.cites;
  }
}
