/** Attaching sources: what MERGE keeps unique, and why order and duplicates do not matter. */
module Sources {
  import opened KnowledgeGraph
  import opened GraphInvariants

  lemma UrlHasKey(g: Graph, url: Url) returns (s: ElementId)
    requires url in g.sources.Values
    ensures s in g.sources && g.sources[s] == url
  {
    s :| s in g.sources && g.sources[s] == url;
  }

  lemma UniqueSourceNode(g: Graph, url: Url, s: ElementId)
    requires OneSourcePerUrl(g) && s in g.sources && g.sources[s] == url
    ensures SourceNode(g, url) == s
  {
  }

  lemma MergeSourceKeepsInv(g: Graph, url: Url)
    requires Inv(g)
    ensures Inv(MergeSource(g, url)) && url in MergeSource(g, url).sources.Values
  {
    var m := MergeSource(g, url);
    if url !in g.sources.Values {
      assert g.next !in g.sources;
      assert m.sources[g.next] == url;
      forall s | s in g.sources ensures g.sources[s] != url {}
    }
  }

  /** With the mirror invariant, merging a pair that is there already sets what is set. */
  lemma MergeKnownCite(g: Graph, id: Uuid, s: ElementId)
    requires CitesMirror(g) && id in g.entities && exists k | k in g.cites :: Cites(g, k, id, s)
    ensures MergeCite(g, id, s) == g
  {
    assert MergeCite(g, id, s).cites == g.cites;
  }

  lemma MergeCiteKeepsInv(g: Graph, id: Uuid, s: ElementId)
    requires Inv(g) && id in g.entities && s in g.sources
    ensures Inv(MergeCite(g, id, s))
  {
    if exists k | k in g.cites :: Cites(g, k, id, s) {
      MergeKnownCite(g, id, s);
    } else {
      var m := MergeCite(g, id, s);
      assert EdgeInv(m) && g.next !in g.cites;
      forall k | k in g.cites ensures !(g.cites[k].entity == id && g.cites[k].source == s) {
        assert !Cites(g, k, id, s);
      }
    }
  }

  lemma AttachOneKeepsInv(g: Graph, id: Uuid, url: Url)
    requires Inv(g) && id in g.entities
    ensures Inv(AttachOne(g, id, url))
    ensures AttachOne(g, id, url).entities == g.entities && AttachOne(g, id, url).edges == g.edges
  {
    MergeSourceKeepsInv(g, url);
    var m := MergeSource(g, url);
    var s := UrlHasKey(m, url);
    UniqueSourceNode(m, url, s);
    MergeCiteKeepsInv(m, id, s);
  }

  lemma {:induction false} AttachAllKeepsInv(g: Graph, id: Uuid, urls: seq<Url>)
    requires Inv(g) && id in g.entities
    ensures Inv(AttachAll(g, id, urls))
    ensures AttachAll(g, id, urls).entities == g.entities && AttachAll(g, id, urls).edges == g.edges
    decreases urls
  {
    if urls != [] {
      AttachOneKeepsInv(g, id, urls[0]);
      AttachAllKeepsInv(AttachOne(g, id, urls[0]), id, urls[1..]);
    }
  }

  // ---- The graph's provenance, without element ids ----

  datatype Fact = Fact(entity: Uuid, url: Url, visibility: Visibility)

  ghost function Facts(g: Graph): set<Fact> {
    set k | k in g.cites && g.cites[k].source in g.sources ::
      Fact(g.cites[k].entity, g.sources[g.cites[k].source], g.cites[k].visibility)
  }

  function UrlSet(urls: seq<Url>): set<Url> {
    set url | url in urls
  }

  ghost function NewFacts(id: Uuid, v: Visibility, urls: set<Url>): set<Fact> {
    set url | url in urls :: Fact(id, url, v)
  }

  lemma NewFactsAdd(id: Uuid, v: Visibility, urls: seq<Url>)
    requires urls != []
    ensures UrlSet(urls) == {urls[0]} + UrlSet(urls[1..])
    ensures NewFacts(id, v, UrlSet(urls)) == {Fact(id, urls[0], v)} + NewFacts(id, v, UrlSet(urls[1..]))
  {
    assert forall url :: url in urls <==> url == urls[0] || url in urls[1..];
  }

  lemma MergeCiteFacts(g: Graph, id: Uuid, s: ElementId)
    requires Inv(g) && id in g.entities && s in g.sources
    ensures Facts(MergeCite(g, id, s)) == Facts(g) + {Fact(id, g.sources[s], g.entities[id].visibility)}
  {
    var m := MergeCite(g, id, s);
    var fact := Fact(id, g.sources[s], g.entities[id].visibility);
    if exists k | k in g.cites :: Cites(g, k, id, s) {
      var k :| k in g.cites && Cites(g, k, id, s);
      MergeKnownCite(g, id, s);
      assert fact == Fact(g.cites[k].entity, g.sources[g.cites[k].source], g.cites[k].visibility);
    } else {
      assert g.next !in g.cites && g.next in m.cites;
      forall f | f in Facts(g) ensures f in Facts(m) {
        var k :| k in g.cites && g.cites[k].source in g.sources
          && f == Fact(g.cites[k].entity, g.sources[g.cites[k].source], g.cites[k].visibility);
        assert m.cites[k] == g.cites[k];
      }
      assert m.cites[g.next] == Cite(id, s, g.entities[id].visibility);
    }
  }

  lemma MergeSourceFacts(g: Graph, url: Url)
    requires Inv(g)
    ensures Facts(MergeSource(g, url)) == Facts(g)
    ensures MergeSource(g, url).sources.Values == g.sources.Values + {url}
  {
    var m := MergeSource(g, url);
    if url !in g.sources.Values {
      assert g.next !in g.sources && m.sources[g.next] == url;
      forall s | s in g.sources ensures s in m.sources && m.sources[s] == g.sources[s] {}
      forall x | x in g.sources.Values ensures x in m.sources.Values {
        var s := UrlHasKey(g, x);
        assert m.sources[s] == x;
      }
      forall k | k in g.cites ensures g.cites[k].source in g.sources {}
      assert Facts(m) == Facts(g);
    }
  }

  lemma AttachOneFacts(g: Graph, id: Uuid, url: Url)
    requires Inv(g) && id in g.entities
    ensures Facts(AttachOne(g, id, url)) == Facts(g) + {Fact(id, url, g.entities[id].visibility)}
    ensures AttachOne(g, id, url).sources.Values == g.sources.Values + {url}
  {
    MergeSourceKeepsInv(g, url);
    MergeSourceFacts(g, url);
    var m := MergeSource(g, url);
    var s := UrlHasKey(m, url);
    UniqueSourceNode(m, url, s);
    MergeCiteFacts(m, id, s);
  }

  lemma Associative<T>(a: set<T>, b: set<T>, c: set<T>)
    ensures a + b + c == a + (b + c)
  {
  }

  /** The provenance after attaching depends on the urls only as a set. */
  lemma {:induction false} AttachAllFacts(g: Graph, id: Uuid, urls: seq<Url>)
    requires Inv(g) && id in g.entities
    ensures Facts(AttachAll(g, id, urls)) == Facts(g) + NewFacts(id, g.entities[id].visibility, UrlSet(urls))
    ensures AttachAll(g, id, urls).sources.Values == g.sources.Values + UrlSet(urls)
    decreases urls
  {
    var v := g.entities[id].visibility;
    if urls == [] {
      assert UrlSet(urls) == {} && NewFacts(id, v, {}) == {};
    } else {
      AttachOneKeepsInv(g, id, urls[0]);
      AttachOneFacts(g, id, urls[0]);
      AttachAllFacts(AttachOne(g, id, urls[0]), id, urls[1..]);
      NewFactsAdd(id, v, urls);
      Associative(Facts(g), {Fact(id, urls[0], v)}, NewFacts(id, v, UrlSet(urls[1..])));
      Associative(g.sources.Values, {urls[0]}, UrlSet(urls[1..]));
    }
  }

  lemma AttachSourcesFacts(g: Graph, u: UserId, id: Uuid, urls: seq<Url>)
    requires Inv(g)
    ensures Inv(AttachSources(g, u, id, urls))
    ensures Facts(AttachSources(g, u, id, urls))
      == Facts(g) + if Owns(g, u, id) then NewFacts(id, g.entities[id].visibility, UrlSet(urls)) else {}
    ensures AttachSources(g, u, id, urls).sources.Values
      == g.sources.Values + if Owns(g, u, id) then UrlSet(urls) else {}
    ensures AttachSources(g, u, id, urls).entities == g.entities && AttachSources(g, u, id, urls).edges == g.edges
  {
    if Owns(g, u, id) {
      AttachAllKeepsInv(g, id, urls);
      AttachAllFacts(g, id, urls);
    }
  }

  /** Order and duplicates of the urls are immaterial. */
  lemma AttachOrderIrrelevant(g: Graph, u: UserId, id: Uuid, urls: seq<Url>, same: seq<Url>)
    requires Inv(g) && UrlSet(urls) == UrlSet(same)
    ensures Facts(AttachSources(g, u, id, urls)) == Facts(AttachSources(g, u, id, same))
    ensures AttachSources(g, u, id, urls).sources.Values == AttachSources(g, u, id, same).sources.Values
  {
    AttachSourcesFacts(g, u, id, urls);
    AttachSourcesFacts(g, u, id, same);
  }

  // ---- Idempotence, element ids included ----

  lemma AttachKnownIsNoChange(g: Graph, id: Uuid, url: Url)
    requires Inv(g) && id in g.entities && Fact(id, url, g.entities[id].visibility) in Facts(g)
    ensures AttachOne(g, id, url) == g
  {
    var k :| k in g.cites && g.cites[k].source in g.sources
      && Fact(id, url, g.entities[id].visibility)
         == Fact(g.cites[k].entity, g.sources[g.cites[k].source], g.cites[k].visibility);
    var s := g.cites[k].source;
    assert url in g.sources.Values by { assert g.sources[s] == url; }
    UniqueSourceNode(g, url, s);
    assert Cites(g, k, id, s);
    MergeKnownCite(g, id, s);
  }

  lemma {:induction false} AttachAllKnownIsNoChange(g: Graph, id: Uuid, urls: seq<Url>)
    requires Inv(g) && id in g.entities && NewFacts(id, g.entities[id].visibility, UrlSet(urls)) <= Facts(g)
    ensures AttachAll(g, id, urls) == g
    decreases urls
  {
    if urls != [] {
      NewFactsAdd(id, g.entities[id].visibility, urls);
      AttachKnownIsNoChange(g, id, urls[0]);
      AttachAllKnownIsNoChange(g, id, urls[1..]);
    }
  }

  lemma AttachIdempotent(g: Graph, u: UserId, id: Uuid, urls: seq<Url>)
    requires Inv(g)
    ensures
      var h := AttachSources(g, u, id, urls);
      AttachSources(h, u, id, urls) == h
  {
    if Owns(g, u, id) {
      var h := AttachSources(g, u, id, urls);
      AttachAllKeepsInv(g, id, urls);
      AttachAllFacts(g, id, urls);
      AttachAllKnownIsNoChange(h, id, urls);
    }
  }
}
