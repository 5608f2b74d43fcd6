/** Whole runs: any users' requests, in any order. */
module GraphRuns {
  import opened KnowledgeGraph
  import opened GraphInvariants
  import opened VisibilityChange
  import opened VisibilityLaws
  import opened Sources

  datatype Op =
    | Create(u: UserId, id: Uuid, visibility: Visibility, name: string, kind: string, attributes: Attributes)
    | Link(u: UserId, id: Uuid, src: Uuid, dst: Uuid, kind: string, visibility: Visibility)
    | Delete(u: UserId, id: Uuid)
    | Unlink(u: UserId, id: Uuid)
    | Change(u: UserId, id: Uuid, visibility: Visibility, cascade: bool)
    | Attach(u: UserId, id: Uuid, urls: seq<Url>)

  ghost function Step(g: Graph, op: Op): Graph {
    match op
    case Create(u, id, v, name, kind, attributes) =>
      (match CreateEntity(g, u, id, v, name, kind, attributes) case Some(h) => h case None => g)
    case Link(u, id, src, dst, kind, v) => CreateRelationship(g, u, id, src, dst, kind, v)
    case Delete(u, id) => DeleteEntity(g, u, id)
    case Unlink(u, id) => DeleteRelationship(g, u, id)
    case Change(u, id, v, cascade) => ChangeVisibility(g, u, id, v, cascade).0
    case Attach(u, id, urls) => AttachSources(g, u, id, urls)
  }

  ghost function Exec(g: Graph, ops: seq<Op>): Graph
    decreases ops
  {
    if ops == [] then g else Exec(Step(g, ops[0]), ops[1..])
  }

  lemma CreateKeepsInv(g: Graph, op: Op)
    requires Inv(g) && op.Create?
    ensures Inv(Step(g, op))
  {
    var h := Step(g, op);
    assert forall i | i in g.entities :: i in h.entities && h.entities[i] == g.entities[i];
    forall k | k in h.edges ensures Linkable(h, h.edges[k].owner, h.edges[k].src, h.edges[k].dst) {
      assert Linkable(g, g.edges[k].owner, g.edges[k].src, g.edges[k].dst);
    }
  }

  lemma LinkKeepsInv(g: Graph, op: Op)
    requires Inv(g) && op.Link?
    ensures Inv(Step(g, op))
  {
    var h := Step(g, op);
    forall k | k in h.edges ensures Linkable(h, h.edges[k].owner, h.edges[k].src, h.edges[k].dst) {
      if k in g.edges { assert Linkable(g, g.edges[k].owner, g.edges[k].src, g.edges[k].dst); }
    }
  }

  lemma DeleteKeepsInv(g: Graph, op: Op)
    requires Inv(g) && (op.Delete? || op.Unlink?)
    ensures Inv(Step(g, op))
  {
    var h := Step(g, op);
    forall k | k in h.edges ensures Linkable(h, h.edges[k].owner, h.edges[k].src, h.edges[k].dst) {
      assert Linkable(g, g.edges[k].owner, g.edges[k].src, g.edges[k].dst);
    }
  }

  lemma StepKeepsInv(g: Graph, op: Op)
    requires Inv(g)
    ensures Inv(Step(g, op))
  {
    match op
    case Create(_, _, _, _, _, _) => CreateKeepsInv(g, op);
    case Link(_, _, _, _, _, _) => LinkKeepsInv(g, op);
    case Delete(_, _) => DeleteKeepsInv(g, op);
    case Unlink(_, _) => DeleteKeepsInv(g, op);
    case Change(u, id, v, cascade) => ChangeKeepsInv(g, u, id, v, cascade);
    case Attach(u, id, urls) => AttachSourcesFacts(g, u, id, urls);
  }

  /** Every graph reachable from the empty one is well-formed. */
  lemma {:induction false} RunKeepsInv(g: Graph, ops: seq<Op>)
    requires Inv(g)
    ensures Inv(Exec(g, ops))
    decreases ops
  {
    if ops != [] {
      StepKeepsInv(g, ops[0]);
      RunKeepsInv(Step(g, ops[0]), ops[1..]);
    }
  }

  lemma ReachableGraphsAreSound(ops: seq<Op>)
    ensures Inv(Exec(EMPTY, ops))
  {
    RunKeepsInv(EMPTY, ops);
  }

  /**
    The same spelled out on the fields: no dangling edge; an edge's owner owns one of its ends and may
    see both; a public edge has public ends; one source a url, one citation an entity and source, as
    visible as its entity.
   */
  lemma ReachableGraphsInFull(ops: seq<Op>)
    ensures
      var g := Exec(EMPTY, ops);
      && (forall k | k in g.edges ::
            var e := g.edges[k];
            && e.src in g.entities && e.dst in g.entities
            && (g.entities[e.src].owner == e.owner || g.entities[e.dst].owner == e.owner)
            && (g.entities[e.src].owner == e.owner || g.entities[e.src].visibility == Public)
            && (g.entities[e.dst].owner == e.owner || g.entities[e.dst].visibility == Public)
            && (e.visibility == Public ==> g.entities[e.src].visibility == g.entities[e.dst].visibility == Public))
      && (forall s, t | s in g.sources && t in g.sources && g.sources[s] == g.sources[t] :: s == t)
      && (forall k | k in g.cites ::
            var c := g.cites[k];
            c.entity in g.entities && c.source in g.sources && c.visibility == g.entities[c.entity].visibility)
      && (forall j, k | j in g.cites && k in g.cites && g.cites[j] == g.cites[k] :: j == k)
  {
    ReachableGraphsAreSound(ops);
    var g := Exec(EMPTY, ops);
    forall k | k in g.edges ensures Linkable(g, g.edges[k].owner, g.edges[k].src, g.edges[k].dst) && Anchored(g, g.edges[k]) {
    }
  }

  /** Ownership never changes: an entity or edge that survives a step keeps everything but its visibility. */
  lemma StepKeepsIdentity(g: Graph, op: Op)
    requires Inv(g)
    ensures
      var h := Step(g, op);
      && (forall i | i in g.entities && i in h.entities ::
            h.entities[i] == g.entities[i].(visibility := h.entities[i].visibility))
      && (forall k | k in g.edges && k in h.edges :: h.edges[k] == g.edges[k].(visibility := h.edges[k].visibility))
  {
    match op
    case Change(u, id, v, cascade) => ChangeEffect(g, u, id, v, cascade);
    case Attach(u, id, urls) => AttachSourcesFacts(g, u, id, urls);
    case _ =>
  }

  // ---- What a user does in private, nobody else sees ----

  predicate ActsInPrivate(g: Graph, op: Op) {
    match op
    case Create(_, _, v, _, _, _) => v == Private
    case Link(_, _, _, _, _, v) => v == Private
    case Delete(_, id) => !IsPublic(g, id)
    case Unlink(u, id) => forall k | k in g.edges && g.edges[k].id == id :: g.edges[k].visibility == Private && g.edges[k].owner == u
    case Change(_, id, v, cascade) => !cascade && v == Private && !IsPublic(g, id)
    case Attach(_, id, _) => !IsPublic(g, id)
  }

  lemma SameReadableEdges(g: Graph, h: Graph, w: UserId)
    requires EdgeInv(g) && EdgeInv(h)
    requires forall k | (k in g.edges && (g.edges[k].visibility == Public || g.edges[k].owner == w))
                     || (k in h.edges && (h.edges[k].visibility == Public || h.edges[k].owner == w)) ::
               k in g.edges && k in h.edges && g.edges[k] == h.edges[k]
    ensures ListGraph(g, w).relationships == ListGraph(h, w).relationships
  {
    forall k | k in g.edges ensures ReadableEdge(g, w, g.edges[k]) <==> g.edges[k].visibility == Public || g.edges[k].owner == w {
      EdgeFilterIsLastConjunct(g, w, k);
    }
    forall k | k in h.edges ensures ReadableEdge(h, w, h.edges[k]) <==> h.edges[k].visibility == Public || h.edges[k].owner == w {
      EdgeFilterIsLastConjunct(h, w, k);
    }
  }

  /** Same public part for w: the entities w sees, the edges w may read, and their sources. */
  lemma SameView(g: Graph, h: Graph, w: UserId)
    requires EdgeInv(g) && EdgeInv(h)
    requires forall i | Sees(g, w, i) || Sees(h, w, i) ::
               i in g.entities && i in h.entities && g.entities[i] == h.entities[i] && SourcesOf(g, i) == SourcesOf(h, i)
    requires forall k | (k in g.edges && (g.edges[k].visibility == Public || g.edges[k].owner == w))
                     || (k in h.edges && (h.edges[k].visibility == Public || h.edges[k].owner == w)) ::
               k in g.edges && k in h.edges && g.edges[k] == h.edges[k]
    ensures ListGraph(g, w) == ListGraph(h, w)
  {
    SameReadableEdges(g, h, w);
    assert ListGraph(g, w).entities == ListGraph(h, w).entities;
  }

  lemma SourcesFromFacts(g: Graph, i: Uuid)
    ensures SourcesOf(g, i) == set f | f in Facts(g) && f.entity == i :: f.url
  {
    forall url | url in SourcesOf(g, i) ensures url in set f | f in Facts(g) && f.entity == i :: f.url {
      var k :| k in g.cites && g.cites[k].entity == i && g.cites[k].source in g.sources && g.sources[g.cites[k].source] == url;
      assert Fact(i, url, g.cites[k].visibility) in Facts(g);
    }
  }

  /** An edge on a private entity is private and its owner's. */
  lemma DeletedEdgesWereOwn(g: Graph, u: UserId, id: Uuid, w: UserId)
    requires Inv(g) && w != u && !IsPublic(g, id) && Owns(g, u, id)
    ensures forall k | k in g.edges && (g.edges[k].visibility == Public || g.edges[k].owner == w) :: !Touches(g.edges[k], {id})
  {
    forall k | k in g.edges && (g.edges[k].visibility == Public || g.edges[k].owner == w)
      ensures !Touches(g.edges[k], {id})
    {
      assert Linkable(g, g.edges[k].owner, g.edges[k].src, g.edges[k].dst);
    }
  }

  /** Deleting a private entity takes away only what its owner alone could read. */
  lemma DeletePrivateInvisible(g: Graph, u: UserId, id: Uuid, w: UserId)
    requires Inv(g) && w != u && !IsPublic(g, id)
    ensures ListGraph(DeleteEntity(g, u, id), w) == ListGraph(g, w)
  {
    if Owns(g, u, id) {
      var h := DeleteEntity(g, u, id);
      DeleteKeepsInv(g, Delete(u, id));
      DeletedEdgesWereOwn(g, u, id, w);
      forall i | Sees(g, w, i) ensures SourcesOf(g, i) == SourcesOf(h, i) {
        assert forall k | k in g.cites && g.cites[k].entity == i :: k in h.cites && h.cites[k] == g.cites[k];
      }
      SameView(g, h, w);
    }
  }

  lemma AttachPrivateInvisible(g: Graph, u: UserId, id: Uuid, urls: seq<Url>, w: UserId)
    requires Inv(g) && w != u && !IsPublic(g, id)
    ensures ListGraph(AttachSources(g, u, id, urls), w) == ListGraph(g, w)
  {
    var h := AttachSources(g, u, id, urls);
    AttachSourcesFacts(g, u, id, urls);
    forall i | Sees(g, w, i) ensures SourcesOf(g, i) == SourcesOf(h, i) {
      SourcesFromFacts(g, i);
      SourcesFromFacts(h, i);
      assert forall f: Fact | f.entity == i :: f in Facts(g) <==> f in Facts(h);
    }
    SameView(g, h, w);
  }

  lemma CreatePrivateInvisible(g: Graph, op: Op, w: UserId)
    requires Inv(g) && op.Create? && op.u != w && ActsInPrivate(g, op)
    ensures ListGraph(Step(g, op), w) == ListGraph(g, w)
  {
    CreateKeepsInv(g, op);
    forall i | Sees(g, w, i) ensures SourcesOf(g, i) == SourcesOf(Step(g, op), i) {}
    SameView(g, Step(g, op), w);
  }

  lemma EdgesPrivateInvisible(g: Graph, op: Op, w: UserId)
    requires Inv(g) && (op.Link? || op.Unlink?) && op.u != w && ActsInPrivate(g, op)
    ensures ListGraph(Step(g, op), w) == ListGraph(g, w)
  {
    StepKeepsInv(g, op);
    var h := Step(g, op);
    assert h.entities == g.entities && h.sources == g.sources && h.cites == g.cites;
    SameReadableEdges(g, h, w);
  }

  lemma PrivateStepInvisible(g: Graph, op: Op, w: UserId)
    requires Inv(g) && op.u != w && ActsInPrivate(g, op)
    ensures ListGraph(Step(g, op), w) == ListGraph(g, w)
  {
    match op
    case Create(_, _, _, _, _, _) => CreatePrivateInvisible(g, op, w);
    case Link(_, _, _, _, _, _) => EdgesPrivateInvisible(g, op, w);
    case Delete(u, id) => DeletePrivateInvisible(g, u, id, w);
    case Unlink(_, _) => EdgesPrivateInvisible(g, op, w);
    case Change(u, id, _, _) => if Owns(g, u, id) { PrivateAgainIsNoChange(g, u, id); }
    case Attach(u, id, urls) => AttachPrivateInvisible(g, u, id, urls, w);
  }

  ghost predicate AllPrivateBy(g: Graph, u: UserId, ops: seq<Op>)
    decreases ops
  {
    ops == [] || (ops[0].u == u && ActsInPrivate(g, ops[0]) && AllPrivateBy(Step(g, ops[0]), u, ops[1..]))
  }

  /** A whole session of private work by u leaves every other user's list_graph as it was. */
  lemma {:induction false} PrivateRunInvisible(g: Graph, u: UserId, ops: seq<Op>, w: UserId)
    requires Inv(g) && u != w && AllPrivateBy(g, u, ops)
    ensures ListGraph(Exec(g, ops), w) == ListGraph(g, w)
    decreases ops
  {
    if ops != [] {
      PrivateStepInvisible(g, ops[0], w);
      StepKeepsInv(g, ops[0]);
      PrivateRunInvisible(Step(g, ops[0]), u, ops[1..], w);
    }
  }
}
