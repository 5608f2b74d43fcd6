/** What holds of every graph the service can reach. */
module GraphInvariants {
  import opened KnowledgeGraph

  /** No dangling edge. */
  ghost predicate EdgesAnchored(g: Graph) {
    forall k | k in g.edges :: Anchored(g, g.edges[k])
  }

  /** An edge is never more visible than its endpoints. */
  ghost predicate EdgesNotWider(g: Graph) {
    forall k | k in g.edges && g.edges[k].visibility == Public ::
      IsPublic(g, g.edges[k].src) && IsPublic(g, g.edges[k].dst)
  }

  /** The owner of an edge sees both endpoints and owns one of them. */
  ghost predicate EdgeOwnersLink(g: Graph) {
    forall k | k in g.edges :: Linkable(g, g.edges[k].owner, g.edges[k].src, g.edges[k].dst)
  }

  ghost predicate OneSourcePerUrl(g: Graph) {
    forall s, t | s in g.sources && t in g.sources && g.sources[s] == g.sources[t] :: s == t
  }

  ghost predicate CitesAnchored(g: Graph) {
    forall k | k in g.cites :: g.cites[k].entity in g.entities && g.cites[k].source in g.sources
  }

  ghost predicate OneCitePerPair(g: Graph) {
    forall j, k | j in g.cites && k in g.cites
      && g.cites[j].entity == g.cites[k].entity && g.cites[j].source == g.cites[k].source :: j == k
  }

  /** A SOURCED_FROM edge is exactly as visible as its entity. */
  ghost predicate CitesMirror(g: Graph) {
    forall k | k in g.cites && g.cites[k].entity in g.entities ::
      g.cites[k].visibility == g.entities[g.cites[k].entity].visibility
  }

  ghost predicate KeysAllocated(g: Graph) {
    && (forall k | k in g.edges :: k < g.next)
    && (forall k | k in g.sources :: k < g.next)
    && (forall k | k in g.cites :: k < g.next)
  }

  ghost predicate EdgeInv(g: Graph) {
    EdgesAnchored(g) && EdgesNotWider(g) && EdgeOwnersLink(g)
  }

  ghost predicate SourceInv(g: Graph) {
    OneSourcePerUrl(g) && CitesAnchored(g) && OneCitePerPair(g) && CitesMirror(g)
  }

  ghost predicate Inv(g: Graph) {
    EdgeInv(g) && SourceInv(g) && KeysAllocated(g)
  }
}
