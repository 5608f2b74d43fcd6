/** The caller's connected sub-graph: what the breadth-first walk of a cascade must find. */
module OwnedComponent {
  import opened KnowledgeGraph

  ghost predicate Walk(g: Graph, u: UserId, p: seq<Uuid>) {
    |p| > 0 && forall i | 0 <= i < |p| - 1 :: Adjacent(g, u, p[i], p[i + 1])
  }

  ghost predicate WalkTo(g: Graph, u: UserId, start: Uuid, x: Uuid, p: seq<Uuid>) {
    Walk(g, u, p) && p[0] == start && p[|p| - 1] == x
  }

  /** x can be reached from start by hops over edges u owns to entities u owns. */
  ghost predicate Reaches(g: Graph, u: UserId, start: Uuid, x: Uuid) {
    exists p :: WalkTo(g, u, start, x, p)
  }

  ghost function Component(g: Graph, u: UserId, start: Uuid): set<Uuid> {
    {start} + set x | x in g.entities && Reaches(g, u, start, x)
  }

  ghost predicate ClosedUnderHops(g: Graph, u: UserId, s: set<Uuid>) {
    forall a, b | a in s && Adjacent(g, u, a, b) :: b in s
  }

  lemma ReachesSelf(g: Graph, u: UserId, start: Uuid)
    ensures Reaches(g, u, start, start)
  {
    assert WalkTo(g, u, start, start, [start]);
  }

  lemma ReachesStep(g: Graph, u: UserId, start: Uuid, a: Uuid, b: Uuid)
    requires Reaches(g, u, start, a) && Adjacent(g, u, a, b)
    ensures Reaches(g, u, start, b)
  {
    var p :| WalkTo(g, u, start, a, p);
    assert WalkTo(g, u, start, b, p + [b]);
  }

  lemma {:induction false} ClosedContainsWalk(g: Graph, u: UserId, s: set<Uuid>, p: seq<Uuid>)
    requires ClosedUnderHops(g, u, s) && Walk(g, u, p) && p[0] in s
    ensures p[|p| - 1] in s
  {
    if |p| > 1 {
      assert Adjacent(g, u, p[0], p[1]);
      assert Walk(g, u, p[1..]) by {
        forall i | 0 <= i < |p[1..]| - 1 ensures Adjacent(g, u, p[1..][i], p[1..][i + 1]) {
          assert Adjacent(g, u, p[i + 1], p[i + 2]);
        }
      }
      ClosedContainsWalk(g, u, s, p[1..]);
    }
  }

  /** The component is the least set that holds start and is closed under one hop. */
  lemma ComponentIsLeastClosedSet(g: Graph, u: UserId, start: Uuid)
    ensures start in Component(g, u, start)
    ensures ClosedUnderHops(g, u, Component(g, u, start))
    ensures forall s | start in s && ClosedUnderHops(g, u, s) :: Component(g, u, start) <= s
  {
    ReachesSelf(g, u, start);
    var c := Component(g, u, start);
    forall a, b | a in c && Adjacent(g, u, a, b) ensures b in c {
      ReachesStep(g, u, start, a, b);
    }
    forall s | start in s && ClosedUnderHops(g, u, s) ensures c <= s {
      forall x | x in c && x != start ensures x in s {
        var p :| WalkTo(g, u, start, x, p);
        ClosedContainsWalk(g, u, s, p);
      }
    }
  }

  lemma ComponentIsOwned(g: Graph, u: UserId, start: Uuid)
    requires Owns(g, u, start)
    ensures forall i | i in Component(g, u, start) :: Owns(g, u, i)
  {
    var owned := set i | i in g.entities && Owns(g, u, i);
    ComponentIsLeastClosedSet(g, u, start);
    assert ClosedUnderHops(g, u, owned);
  }

  /** Two graphs in which u's own entities have the same hops for u. */
  ghost predicate SameOwnHops(g: Graph, h: Graph, u: UserId) {
    && (forall i :: Owns(g, u, i) <==> Owns(h, u, i))
    && (forall a, b | Owns(g, u, a) :: Adjacent(g, u, a, b) <==> Adjacent(h, u, a, b))
  }

  lemma ComponentWithin(g: Graph, h: Graph, u: UserId, start: Uuid)
    requires SameOwnHops(g, h, u) && Owns(g, u, start)
    ensures Component(g, u, start) <= Component(h, u, start)
  {
    ComponentIsLeastClosedSet(g, u, start);
    ComponentIsLeastClosedSet(h, u, start);
    ComponentIsOwned(h, u, start);
    assert ClosedUnderHops(g, u, Component(h, u, start));
  }

  lemma SameHopsSameComponent(g: Graph, h: Graph, u: UserId, start: Uuid)
    requires SameOwnHops(g, h, u) && Owns(g, u, start)
    ensures Component(g, u, start) == Component(h, u, start)
  {
    ComponentWithin(g, h, u, start);
    assert SameOwnHops(h, g, u);
    ComponentWithin(h, g, u, start);
  }

  // ---- The same without the hop query, on the fields of the edges alone ----

  /** Closed under the caller's own edges between the caller's own entities, whichever way they point. */
  ghost predicate ClosedUnderOwnEdges(g: Graph, u: UserId, s: set<Uuid>) {
    forall k | k in g.edges && g.edges[k].owner == u && OwnEnds(g, u, g.edges[k]) :: g.edges[k].src in s <==> g.edges[k].dst in s
  }

  predicate OwnEnds(g: Graph, u: UserId, e: Edge) {
    && e.src in g.entities && e.dst in g.entities
    && g.entities[e.src].owner == u && g.entities[e.dst].owner == u
  }

  lemma OwnEdgesStayInside(g: Graph, u: UserId, start: Uuid)
    ensures ClosedUnderOwnEdges(g, u, Component(g, u, start))
  {
    var c := Component(g, u, start);
    ComponentIsLeastClosedSet(g, u, start);
    forall k | k in g.edges && g.edges[k].owner == u && OwnEnds(g, u, g.edges[k])
      ensures g.edges[k].src in c <==> g.edges[k].dst in c
    {
      assert Adjacent(g, u, g.edges[k].src, g.edges[k].dst) && Adjacent(g, u, g.edges[k].dst, g.edges[k].src);
    }
  }

  lemma ClosedUnderEdgesIsClosed(g: Graph, u: UserId, start: Uuid, s: set<Uuid>)
    requires start in g.entities && g.entities[start].owner == u && start in s && ClosedUnderOwnEdges(g, u, s)
    ensures Component(g, u, start) <= s
  {
    var own := set i | i in s && i in g.entities && g.entities[i].owner == u;
    forall a, b | a in own && Adjacent(g, u, a, b) ensures b in own {
      var k :| k in g.edges && g.edges[k].owner == u && Joins(g.edges[k], a, b);
      assert OwnEnds(g, u, g.edges[k]);
    }
    assert start in own && ClosedUnderHops(g, u, own);
    ComponentIsLeastClosedSet(g, u, start);
    assert Component(g, u, start) <= own;
  }

  /**
    From an owned start, the component is the least set that holds the start and with one end of an
    edge the caller owns between two entities the caller owns also holds the other.
   */
  lemma ComponentFollowsEdges(g: Graph, u: UserId, start: Uuid)
    requires start in g.entities && g.entities[start].owner == u
    ensures
      var c := Component(g, u, start);
      && start in c && ClosedUnderOwnEdges(g, u, c)
      && (forall s | start in s && ClosedUnderOwnEdges(g, u, s) :: c <= s)
      && (forall x | x in c :: x in g.entities && g.entities[x].owner == u)
  {
    OwnEdgesStayInside(g, u, start);
    ComponentIsOwned(g, u, start);
    forall s | start in s && ClosedUnderOwnEdges(g, u, s) ensures Component(g, u, start) <= s {
      ClosedUnderEdgesIsClosed(g, u, start, s);
    }
  }

  predicate Links(e: Edge, x: Uuid, y: Uuid) {
    (e.src == x && e.dst == y) || (e.src == y && e.dst == x)
  }

  /** Every other member hangs on another member by an edge the caller owns. */
  lemma MembersAreLinked(g: Graph, u: UserId, start: Uuid, x: Uuid)
    requires x in Component(g, u, start) && x != start
    ensures exists y, k :: k in g.edges && y in Component(g, u, start) && y != x && g.edges[k].owner == u && Links(g.edges[k], x, y)
  {
    var p :| WalkTo(g, u, start, x, p);
    var n := FirstVisit(p, x);
    assert Adjacent(g, u, p[n - 1], p[n]);
    var k :| k in g.edges && g.edges[k].owner == u && Joins(g.edges[k], p[n - 1], p[n]);
    ReachesPrefix(g, u, start, p, n - 1);
    assert p[n - 1] in Component(g, u, start) && p[n - 1] != x;
    assert Links(g.edges[k], x, p[n - 1]);
  }

  lemma FirstVisit(p: seq<Uuid>, x: Uuid) returns (n: nat)
    requires |p| > 0 && p[0] != x && p[|p| - 1] == x
    ensures 0 < n < |p| && p[n] == x && p[n - 1] != x
  {
    n := 1;
    while p[n] != x
      invariant 0 < n < |p| && forall j | 0 <= j < n :: p[j] != x
      decreases |p| - n
    {
      n := n + 1;
    }
  }

  lemma ReachesPrefix(g: Graph, u: UserId, start: Uuid, p: seq<Uuid>, n: nat)
    requires Walk(g, u, p) && p[0] == start && n < |p|
    ensures p[n] in Component(g, u, start)
  {
    var q := p[..n + 1];
    forall i | 0 <= i < |q| - 1 ensures Adjacent(g, u, q[i], q[i + 1]) {
      assert Adjacent(g, u, p[i], p[i + 1]);
    }
    assert WalkTo(g, u, start, p[n], q);
    if n > 0 { assert Adjacent(g, u, p[n - 1], p[n]); }
  }
}
