/**
  What commit and enrich do to the graph beyond the record: they only ever add, they cite the run's
  sources, and they make the links that were proposed; and what best effort leaves when it fails.
 */
module CommitEffects {
  import opened Wrappers
  import opened KnowledgeGraph
  import opened GraphInvariants
  import opened GraphRuns
  import opened AgentStates
  import opened Faults
  import opened CommitNodes
  import opened CommitLaws
  import opened EnrichLaws
  import opened CommitTrace
  import Sources
  import opened Sequences

  // ---- Only additions ----

  /** Nothing that was there is gone or changed: entities, edges, and which url an entity cites. */
  ghost predicate Grown(g: Graph, h: Graph) {
    && (forall i | i in g.entities :: i in h.entities && h.entities[i] == g.entities[i])
    && (forall k | k in g.edges :: k in h.edges && h.edges[k] == g.edges[k])
    && (forall i, url | CitesUrl(g, i, url) :: CitesUrl(h, i, url))
  }

  ghost predicate CitesUrl(g: Graph, i: Uuid, url: Url) {
    exists k :: k in g.cites && g.cites[k].entity == i && g.cites[k].source in g.sources && g.sources[g.cites[k].source] == url
  }

  lemma FactIsCite(g: Graph, i: Uuid, url: Url)
    ensures CitesUrl(g, i, url) <==> exists f :: f in Sources.Facts(g) && f.entity == i && f.url == url
  {
    if CitesUrl(g, i, url) {
      var k :| k in g.cites && g.cites[k].entity == i && g.cites[k].source in g.sources && g.sources[g.cites[k].source] == url;
      assert Sources.Fact(i, url, g.cites[k].visibility) in Sources.Facts(g);
    }
    if f :| f in Sources.Facts(g) && f.entity == i && f.url == url {
      var k :| k in g.cites && g.cites[k].source in g.sources
        && f == Sources.Fact(g.cites[k].entity, g.sources[g.cites[k].source], g.cites[k].visibility);
    }
  }

  lemma CitesStay(g: Graph, h: Graph)
    requires Sources.Facts(g) <= Sources.Facts(h)
    ensures forall i, url | CitesUrl(g, i, url) :: CitesUrl(h, i, url)
  {
    forall i, url | CitesUrl(g, i, url) ensures CitesUrl(h, i, url) {
      FactIsCite(g, i, url);
      FactIsCite(h, i, url);
    }
  }

  lemma AddingGrows(g: Graph, op: Op)
    requires Inv(g) && Adds(op)
    ensures Grown(g, Step(g, op)) && Inv(Step(g, op))
  {
    StepKeepsInv(g, op);
    if op.Attach? { Sources.AttachSourcesFacts(g, op.u, op.id, op.urls); }
    CitesStay(g, Step(g, op));
  }

  lemma {:induction false} SteadyGrows(owner: UserId, w: World, es: seq<Entry>)
    requires Inv(w.graph) && Steady(owner, w, es)
    ensures Grown(w.graph, Replay(w, es).graph) && Inv(Replay(w, es).graph)
    decreases es
  {
    if es != [] {
      if es[0].Wrote? { AddingGrows(w.graph, es[0].op); }
      SteadyGrows(owner, Happen(w, es[0]), es[1..]);
    }
  }

  /** A commit phase, wherever it stops, has taken nothing away from the graph and changed nothing in it. */
  lemma CommitOnlyAdds(w: World, o: CommitOracle, text: Text, s: AgentState)
    requires Inv(w.graph) && InStep(w, s.committedEntities, s.committedRelationships)
    ensures Grown(w.graph, CommitNode(w, o, text, s).0.graph)
    ensures Grown(w.graph, EnrichNode(w, o, text, s).0.graph)
  {
    var es := CommitNodeTrace(w, o, text, s);
    SteadyGrows(s.owner, w, es);
    var fs := EnrichNodeTrace(w, o, text, s);
    SteadyGrows(s.owner, w, fs);
  }

  // ---- Best effort ----

  /** Attaching: done, or one note if it raised; skipped without sources. */
  lemma TryAttachExact(w: World, o: CommitOracle, owner: UserId, id: Uuid, urls: seq<Url>, skipped: seq<Note>)
    requires Inv(w.graph) && id in w.graph.entities && w.graph.entities[id].owner == owner
    ensures
      var (w', notes, signal) := TryAttach(w, o, owner, id, urls, skipped);
      && notes == skipped + (if urls != [] && o.fault(w.calls).Raise? then [AttachFailed(id)] else [])
      && (urls == [] || Applied(o.fault(w.calls)) ==> forall url | url in urls :: CitesUrl(w'.graph, id, url))
      && (signal == Proceed <==> urls == [] || o.fault(w.calls).Fine? || o.fault(w.calls).Raise?)
      && w'.calls == w.calls + if urls == [] then 0 else 1
  {
    if urls != [] && Applied(o.fault(w.calls)) { AttachCites(w.graph, owner, id, urls); }
    assert skipped + [] == skipped;
  }

  lemma AttachCites(g: Graph, owner: UserId, id: Uuid, urls: seq<Url>)
    requires Inv(g) && id in g.entities && g.entities[id].owner == owner
    ensures forall url | url in urls :: CitesUrl(Step(g, Attach(owner, id, urls)), id, url)
  {
    var h := Step(g, Attach(owner, id, urls));
    Sources.AttachSourcesFacts(g, owner, id, urls);
    forall url | url in urls ensures CitesUrl(h, id, url) {
      var f := Sources.Fact(id, url, g.entities[id].visibility);
      assert url in Sources.UrlSet(urls) && f in Sources.Facts(h);
      FactIsCite(h, id, url);
    }
  }

  /** Embedding: one note exactly if the model or the write of its vector raised. */
  lemma TryEmbedExact(w: World, o: CommitOracle, name: string, skipped: seq<Note>)
    ensures
      var (w', notes, signal) := TryEmbed(w, o, name, skipped);
      var asked, stored := o.fault(w.calls), o.fault(w.calls + 1);
      var raised := asked.Raise? || (asked.Fine? && stored.Raise?);
      && notes == skipped + (if raised then [EmbedFailed(name)] else [])
      && (signal == Proceed <==> raised || (asked.Fine? && stored.Fine?))
      && w'.calls == w.calls + if asked.Fine? then 2 else 1
  {
    assert skipped + [] == skipped;
  }

  /** The notes that the best-effort calls from call c on leave of a new entity. */
  function Notes(o: CommitOracle, c: nat, urls: seq<Url>, id: Uuid, name: string): seq<Note> {
    var embed := if urls == [] then c else c + 1;
    (if urls != [] && o.fault(c).Raise? then [AttachFailed(id)] else [])
      + (if o.fault(embed).Raise? || (o.fault(embed).Fine? && o.fault(embed + 1).Raise?) then [EmbedFailed(name)] else [])
  }

  /** What the two best-effort calls leave: their notes, and either all citations or the note that there are none. */
  lemma BestEffortExact(w: World, o: CommitOracle, owner: UserId, id: Uuid, urls: seq<Url>, name: string, skipped: seq<Note>)
    requires Inv(w.graph) && id in w.graph.entities && w.graph.entities[id].owner == owner
    ensures
      var (attached, notes, s3) := TryAttach(w, o, owner, id, urls, skipped);
      var (embedded, notes', s4) := TryEmbed(attached, o, name, notes);
      s3 == s4 == Proceed ==>
        && notes' == skipped + Notes(o, w.calls, urls, id, name) && embedded.graph == attached.graph
        && (AttachFailed(id) in notes' || forall url | url in urls :: CitesUrl(attached.graph, id, url))
  {
    var (attached, notes, _) := TryAttach(w, o, owner, id, urls, skipped);
    TryAttachExact(w, o, owner, id, urls, skipped);
    TryEmbedExact(attached, o, name, notes);
    var first := if urls != [] && o.fault(w.calls).Raise? then [AttachFailed(id)] else [];
    var all := TryEmbed(attached, o, name, notes).1;
    Associative(skipped, first, all[|notes|..]);
  }

  /** A new entity that went through, call by call. */
  lemma NewEntityCalls(w: World, o: CommitOracle, owner: UserId, urls: seq<Url>, draft: DraftEntity, k: EntityWork)
    requires draft.existingId == None && CommitEntity(w, o, owner, urls, draft, k).2 == Proceed
    ensures
      var id := o.id(w.calls);
      var (stored, s1) := StoreEntity(w, o, owner, draft);
      var (recorded, s2) := RecordEntity(stored, o, id);
      var (attached, notes, s3) := TryAttach(recorded, o, owner, id, urls, k.skipped);
      var (embedded, notes', s4) := TryEmbed(attached, o, draft.name, notes);
      && s1 == s2 == s3 == s4 == Proceed && recorded.calls == w.calls + 2
      && CommitEntity(w, o, owner, urls, draft, k).0 == embedded && CommitEntity(w, o, owner, urls, draft, k).1.skipped == notes'
  {
  }

  /** A new entity cites every source of the run, unless attaching raised, which is noted; so is a failed embedding. */
  lemma NewEntityCites(w: World, o: CommitOracle, owner: UserId, urls: seq<Url>, draft: DraftEntity, k: EntityWork)
    requires Inv(w.graph) && InStep(w, k.committed, w.relationshipIds) && draft.existingId == None
    requires CommitEntity(w, o, owner, urls, draft, k).2 == Proceed
    ensures
      var (w', k', _) := CommitEntity(w, o, owner, urls, draft, k);
      && k'.skipped == k.skipped + Notes(o, w.calls + 2, urls, o.id(w.calls), draft.name)
      && (AttachFailed(o.id(w.calls)) in k'.skipped || forall url | url in urls :: CitesUrl(w'.graph, o.id(w.calls), url))
  {
    NewEntityCalls(w, o, owner, urls, draft, k);
    var recorded := RecordEntity(StoreEntity(w, o, owner, draft).0, o, o.id(w.calls)).0;
    StoreThenRecord(w, o, owner, draft);
    BestEffortExact(recorded, o, owner, o.id(w.calls), urls, draft.name, k.skipped);
  }

  /** So does every new entity of a commit that goes through all drafts. */
  ghost predicate AllCited(g: Graph, drafts: seq<DraftEntity>, ids: seq<Uuid>, urls: seq<Url>, notes: seq<Note>)
    requires |ids| == |drafts|
  {
    forall i | 0 <= i < |drafts| && drafts[i].existingId == None ::
      AttachFailed(ids[i]) in notes || forall url | url in urls :: CitesUrl(g, ids[i], url)
  }

  /** The first of the drafts, for the induction below. */
  lemma FirstCites(w: World, o: CommitOracle, owner: UserId, urls: seq<Url>, draft: DraftEntity, k: EntityWork)
    returns (id: Uuid)
    requires Inv(w.graph) && InStep(w, k.committed, w.relationshipIds)
    requires CommitEntity(w, o, owner, urls, draft, k).2 == Proceed
    ensures
      var (w', k', _) := CommitEntity(w, o, owner, urls, draft, k);
      && Inv(w'.graph) && InStep(w', k'.committed, w'.relationshipIds) && k.skipped <= k'.skipped
      && k'.idMap == k.idMap[draft.tempId := id]
      && k'.committed == k.committed + (if draft.existingId == None then [id] else [])
      && k'.created == k.created + FirstDigest(draft, id)
      && (draft.existingId == None ==>
            AttachFailed(id) in k'.skipped || forall url | url in urls :: CitesUrl(w'.graph, id, url))
  {
    id := CommitEntityLaw(w, o, owner, urls, draft, k);
    ExtendsKeepsInv(owner, w, CommitEntity(w, o, owner, urls, draft, k).0);
    if draft.existingId == None { NewEntityCites(w, o, owner, urls, draft, k); }
  }

  lemma {:induction false} NewEntitiesCite(
    w: World, o: CommitOracle, owner: UserId, urls: seq<Url>, drafts: seq<DraftEntity>, k: EntityWork)
    returns (ids: seq<Uuid>)
    requires Inv(w.graph) && InStep(w, k.committed, w.relationshipIds)
    requires CommitEntities(w, o, owner, urls, drafts, k).2 == Proceed
    ensures |ids| == |drafts|
    ensures
      var (w', k', _) := CommitEntities(w, o, owner, urls, drafts, k);
      && k.skipped <= k'.skipped && k'.idMap == MapAll(k.idMap, drafts, ids)
      && k'.committed == k.committed + NewIds(drafts, ids)
      && AllCited(w'.graph, drafts, ids, urls, k'.skipped)
    decreases drafts
  {
    ids := [];
    if drafts != [] {
      var (next, k1, _) := CommitEntity(w, o, owner, urls, drafts[0], k);
      var (last, k2, _) := CommitEntities(next, o, owner, urls, drafts[1..], k1);
      var id := FirstCites(w, o, owner, urls, drafts[0], k);
      var rest := NewEntitiesCite(next, o, owner, urls, drafts[1..], k1);
      var es := CommitEntitiesTrace(next, o, owner, urls, drafts[1..], k1);
      SteadyGrows(owner, next, es);
      CitedAdded(next.graph, last.graph, drafts, id, rest, urls, k1.skipped, k2.skipped);
      ids := [id] + rest;
      assert ids[1..] == rest;
      MapAdded(drafts, k, k1, ids);
    }
  }

  lemma CitedAdded(
    g: Graph, h: Graph, drafts: seq<DraftEntity>, id: Uuid, rest: seq<Uuid>, urls: seq<Url>, notes: seq<Note>, later: seq<Note>)
    requires drafts != [] && |rest| == |drafts| - 1 && Grown(g, h) && notes <= later
    requires drafts[0].existingId == None ==> AttachFailed(id) in notes || forall url | url in urls :: CitesUrl(g, id, url)
    requires AllCited(h, drafts[1..], rest, urls, later)
    ensures AllCited(h, drafts, [id] + rest, urls, later)
  {
    var ids := [id] + rest;
    forall i | 0 <= i < |drafts| && drafts[i].existingId == None
      ensures AttachFailed(ids[i]) in later || forall url | url in urls :: CitesUrl(h, ids[i], url)
    {
      if i > 0 { assert drafts[i] == drafts[1..][i - 1] && ids[i] == rest[i - 1]; }
    }
  }

  lemma {:induction false} NewIdsCited(
    g: Graph, drafts: seq<DraftEntity>, ids: seq<Uuid>, urls: seq<Url>, notes: seq<Note>, id: Uuid)
    requires |ids| == |drafts| && AllCited(g, drafts, ids, urls, notes) && id in NewIds(drafts, ids)
    ensures AttachFailed(id) in notes || forall url | url in urls :: CitesUrl(g, id, url)
    decreases drafts
  {
    if drafts[0].existingId.Some? || id != ids[0] {
      assert forall i | 0 <= i < |drafts| - 1 :: drafts[1..][i] == drafts[i + 1] && ids[1..][i] == ids[i + 1];
      NewIdsCited(g, drafts[1..], ids[1..], urls, notes, id);
    }
  }

  /** A commit_node that returns: every entity it made cites every document of the run, or its note says that it does not. */
  lemma CommittedEntitiesCite(w: World, o: CommitOracle, text: Text, s: AgentState, id: Uuid, i: nat)
    requires Inv(w.graph) && InStep(w, s.committedEntities, s.committedRelationships)
    requires CommitNode(w, o, text, s).2 == Proceed && i < |s.documents|
    ensures
      var (w', u, _) := CommitNode(w, o, text, s);
      && u.committedEntities.Some? && s.committedEntities <= u.committedEntities.value && u.skipped.Some?
      && (id in u.committedEntities.value[|s.committedEntities|..] ==>
            AttachFailed(id) in u.skipped.value || CitesUrl(w'.graph, id, s.documents[i].url))
  {
    var d := DraftsOf(s);
    var start := EntityWork(map[], s.committedEntities, [], []);
    var (w1, e, _) := CommitEntities(w, o, s.owner, Urls(s.documents), d.entities, start);
    var ids := NewEntitiesCite(w, o, s.owner, Urls(s.documents), d.entities, start);
    CommitEntitiesSafe(w, o, s.owner, Urls(s.documents), d.entities, start);
    ExtendsKeepsInv(s.owner, w, w1);
    var es := CommitRelationshipsTrace(w1, o, text, s.owner, d.relationships, e.idMap, LinkWork(s.committedRelationships, []));
    SteadyGrows(s.owner, w1, es);
    if id in NewIds(d.entities, ids) {
      NewIdsCited(w1.graph, d.entities, ids, Urls(s.documents), e.skipped, id);
      assert Urls(s.documents)[i] in Urls(s.documents);
    }
  }

  // ---- enrich ----

  /**
    With no call failing, the links are exactly the proposals whose target is one of the first five
    entities the search found outside the run, in the order they were proposed; and without such an
    entity, or with a failed call, there are none.
   */
  lemma LinksExactly(w: World, o: CommitOracle, text: Text, own: set<Uuid>)
    requires o.fault(w.calls) == o.fault(w.calls + 1) == o.fault(w.calls + 2) == Fine
    ensures
      var links, five := LinksFor(w, o, text, own).1, FirstFive(o.near(w.calls + 1), own);
      && LinksFor(w, o, text, own).2 == Proceed
      && links == if five == [] then [] else Proposed(text, o.links(w.calls + 2), five)
  {
    var near := o.near(w.calls + 1);
    OthersAreOutside(near, own, |near|);
    assert near[..|near|] == near;
    if Candidates(near, own) != [] { ValidAreProposed(text, o.links(w.calls + 2), Candidates(near, own)); }
  }

  lemma FailedAskIsNoLink(w: World, o: CommitOracle, text: Text, own: set<Uuid>)
    requires LinksFor(w, o, text, own).1 != []
    ensures o.fault(w.calls) == o.fault(w.calls + 1) == o.fault(w.calls + 2) == Fine
  {
  }

  /** In order, those of the first n that the run did not create. */
  function Outside(near: seq<Uuid>, own: set<Uuid>, n: nat): seq<Uuid>
    requires n <= |near|
  {
    if n == 0 then [] else if near[n - 1] in own then Outside(near, own, n - 1) else Outside(near, own, n - 1) + [near[n - 1]]
  }

  function FirstFive(near: seq<Uuid>, own: set<Uuid>): seq<Uuid> {
    var outside := Outside(near, own, |near|);
    if |outside| > 5 then outside[..5] else outside
  }

  function Proposed(text: Text, links: seq<(string, string)>, five: seq<Uuid>): seq<(string, string)> {
    if links == [] then []
    else
      (if exists id | id in five :: text.canonical(id) == links[0].0 then [links[0]] else []) + Proposed(text, links[1..], five)
  }

  lemma {:induction false} OthersAreOutside(near: seq<Uuid>, own: set<Uuid>, n: nat)
    requires n <= |near|
    ensures Others(near[..n], own) == Outside(near, own, n)
  {
    if n > 0 {
      assert near[..n][..n - 1] == near[..n - 1];
      OthersAreOutside(near, own, n - 1);
    }
  }

  lemma {:induction false} ProposedAppend(text: Text, a: seq<(string, string)>, b: seq<(string, string)>, five: seq<Uuid>)
    ensures Proposed(text, a + b, five) == Proposed(text, a, five) + Proposed(text, b, five)
  {
    if a == [] {
      assert a + b == b;
    } else {
      assert (a + b)[0] == a[0] && (a + b)[1..] == a[1..] + b;
      ProposedAppend(text, a[1..], b, five);
    }
  }

  lemma {:induction false} ValidAreProposed(text: Text, links: seq<(string, string)>, five: seq<Uuid>)
    ensures ValidLinks(text, links, CandidateIds(text, five)) == Proposed(text, links, five)
  {
    if links != [] {
      var front, last := links[..|links| - 1], links[|links| - 1];
      assert links == front + [last];
      ValidAreProposed(text, front, five);
      ProposedAppend(text, front, [last], five);
      assert [last][1..] == [];
    }
  }

  /** A proposed link is in the graph, from the new entity to its target, or has its one note. */
  ghost predicate LinkSettled(g: Graph, text: Text, owner: UserId, from: DigestEntity, link: (string, string), fate: EdgeFate) {
    && text.parse(link.0).Some?
    && match fate
       case Committed(id) => EdgeIn(g, Edge(id, owner, from.id, text.parse(link.0).value, link.1, Private))
       case Skipped(note) => note == EnrichRefused(from.name, link.0, NotLinkable)
  }

  lemma {:induction false} EnrichLinksDone(
    w: World, o: CommitOracle, text: Text, owner: UserId, from: DigestEntity, links: seq<(string, string)>, k: LinkWork)
    returns (fates: seq<EdgeFate>)
    requires Inv(w.graph) && InStep(w, w.entityIds, k.committed)
    requires EnrichLinks(w, o, text, owner, from, links, k).2 == Proceed
    ensures |fates| == |links|
    ensures
      var (w', k', _) := EnrichLinks(w, o, text, owner, from, links, k);
      && k'.committed == k.committed + CommittedIds(fates) && k'.skipped == k.skipped + SkipNotes(fates)
      && forall i | 0 <= i < |links| :: LinkSettled(w'.graph, text, owner, from, links[i], fates[i])
    decreases links
  {
    fates := [];
    if links != [] {
      var target := text.parse(links[0].0).value;
      var refused := EnrichRefused(from.name, links[0].0, NotLinkable);
      var (next, k1, _) := MakeLink(w, o, owner, from.id, target, links[0].1, k, refused);
      var fate := MakeLinkLaw(w, o, owner, from.id, target, links[0].1, k, refused);
      ExtendsKeepsInv(owner, w, next);
      var rest := EnrichLinksDone(next, o, text, owner, from, links[1..], k1);
      var es := EnrichLinksTrace(next, o, text, owner, from, links[1..], k1);
      SteadyGrows(owner, next, es);
      FatesCounted(k, k1, fate, rest);
      fates := [fate] + rest;
      LinksAdded(next.graph, EnrichLinks(next, o, text, owner, from, links[1..], k1).0.graph, text, owner, from, links, fate, rest);
    }
  }

  lemma LinksAdded(
    g: Graph, h: Graph, text: Text, owner: UserId, from: DigestEntity, links: seq<(string, string)>, fate: EdgeFate, rest: seq<EdgeFate>)
    requires links != [] && |rest| == |links| - 1 && Grown(g, h) && LinkSettled(g, text, owner, from, links[0], fate)
    requires forall i | 0 <= i < |rest| :: LinkSettled(h, text, owner, from, links[1..][i], rest[i])
    ensures forall i | 0 <= i < |links| :: LinkSettled(h, text, owner, from, links[i], ([fate] + rest)[i])
  {
    forall i | 0 <= i < |links| ensures LinkSettled(h, text, owner, from, links[i], ([fate] + rest)[i]) {
      if i > 0 { assert links[i] == links[1..][i - 1]; }
    }
  }

  lemma {:induction false} EnrichLinksCalls(
    w: World, o: CommitOracle, text: Text, owner: UserId, from: DigestEntity, links: seq<(string, string)>, k: LinkWork)
    requires EnrichLinks(w, o, text, owner, from, links, k).2 == Proceed
    ensures EnrichLinks(w, o, text, owner, from, links, k).0.calls == w.calls + 2 * |links|
    decreases links
  {
    if links != [] {
      var refused := EnrichRefused(from.name, links[0].0, NotLinkable);
      var (next, k1, _) := MakeLink(w, o, owner, from.id, text.parse(links[0].0).value, links[0].1, k, refused);
      EnrichLinksCalls(next, o, text, owner, from, links[1..], k1);
    }
  }

  function Flat<T>(parts: seq<seq<T>>): seq<T> {
    if parts == [] then [] else parts[0] + Flat(parts[1..])
  }

  /** The links that entity i is asked about, at its own place in the sequence of calls. */
  function Asked(w: World, at: seq<nat>, i: nat, o: CommitOracle, text: Text, own: set<Uuid>): (World, seq<(string, string)>, Signal)
    requires i < |at|
  {
    LinksFor(w.(calls := at[i]), o, text, own)
  }

  /** Entity after entity: where each one's calls begin, and what became of each of its links. */
  ghost predicate Enriched(
    w: World, o: CommitOracle, text: Text, owner: UserId, own: set<Uuid>, entities: seq<DigestEntity>, w': World,
    at: seq<nat>, fates: seq<seq<EdgeFate>>)
  {
    && |at| == |entities| + 1 && |fates| == |entities| && at[0] == w.calls && at[|entities|] == w'.calls
    && forall i | 0 <= i < |entities| ::
         var (asked, links, signal) := Asked(w, at, i, o, text, own);
         && signal == Proceed && |fates[i]| == |links| && at[i + 1] == asked.calls + 2 * |links|
         && forall j | 0 <= j < |links| :: LinkSettled(w'.graph, text, owner, entities[i], links[j], fates[i][j])
  }

  /** Every link proposed for every new entity is in the graph at the end, or has its one note. */
  lemma {:induction false} EnrichAllDone(
    w: World, o: CommitOracle, text: Text, owner: UserId, own: set<Uuid>, entities: seq<DigestEntity>, k: LinkWork)
    returns (at: seq<nat>, fates: seq<seq<EdgeFate>>)
    requires Inv(w.graph) && InStep(w, w.entityIds, k.committed)
    requires EnrichAll(w, o, text, owner, own, entities, k).2 == Proceed
    ensures
      var (w', k', _) := EnrichAll(w, o, text, owner, own, entities, k);
      && Enriched(w, o, text, owner, own, entities, w', at, fates)
      && k'.committed == k.committed + CommittedIds(Flat(fates)) && k'.skipped == k.skipped + SkipNotes(Flat(fates))
    decreases entities
  {
    at, fates := [w.calls], [];
    if entities != [] {
      var (asked, links, _) := LinksFor(w, o, text, own);
      var (next, k1, _) := EnrichLinks(asked, o, text, owner, entities[0], links, k);
      var (last, _, _) := EnrichAll(next, o, text, owner, own, entities[1..], k1);
      LinksForLaw(w, o, text, own, owner);
      var first := EnrichLinksDone(asked, o, text, owner, entities[0], links, k);
      EnrichLinksSafe(asked, o, text, owner, entities[0], links, k);
      EnrichLinksCalls(asked, o, text, owner, entities[0], links, k);
      ExtendsKeepsInv(owner, asked, next);
      var later, rest := EnrichAllDone(next, o, text, owner, own, entities[1..], k1);
      var es := EnrichAllTrace(next, o, text, owner, own, entities[1..], k1);
      SteadyGrows(owner, next, es);
      at, fates := [w.calls] + later, [first] + rest;
      EnrichedAdded(w, next, o, text, owner, own, entities, last, at, fates);
      FlatCounted(k, k1, first, rest);
    }
  }

  lemma FlatCounted(k: LinkWork, k1: LinkWork, first: seq<EdgeFate>, rest: seq<seq<EdgeFate>>)
    requires k1.committed == k.committed + CommittedIds(first) && k1.skipped == k.skipped + SkipNotes(first)
    ensures k.committed + CommittedIds(Flat([first] + rest)) == k1.committed + CommittedIds(Flat(rest))
    ensures k.skipped + SkipNotes(Flat([first] + rest)) == k1.skipped + SkipNotes(Flat(rest))
  {
    assert ([first] + rest)[1..] == rest;
    FatesAppend(first, Flat(rest));
    Associative(k.committed, CommittedIds(first), CommittedIds(Flat(rest)));
    Associative(k.skipped, SkipNotes(first), SkipNotes(Flat(rest)));
  }

  lemma {:induction false} FatesAppend(a: seq<EdgeFate>, b: seq<EdgeFate>)
    ensures CommittedIds(a + b) == CommittedIds(a) + CommittedIds(b) && SkipNotes(a + b) == SkipNotes(a) + SkipNotes(b)
  {
    if a == [] {
      assert a + b == b;
    } else {
      assert (a + b)[1..] == a[1..] + b;
      FatesAppend(a[1..], b);
      Associative(if a[0].Committed? then [a[0].id] else [], CommittedIds(a[1..]), CommittedIds(b));
      Associative(if a[0].Skipped? then [a[0].note] else [], SkipNotes(a[1..]), SkipNotes(b));
    }
  }

  lemma EnrichedAdded(
    w: World, next: World, o: CommitOracle, text: Text, owner: UserId, own: set<Uuid>, entities: seq<DigestEntity>, w': World,
    at: seq<nat>, fates: seq<seq<EdgeFate>>)
    requires entities != [] && |at| == |entities| + 1 && |fates| == |entities| && at[0] == w.calls && Grown(next.graph, w'.graph)
    requires Enriched(next, o, text, owner, own, entities[1..], w', at[1..], fates[1..])
    requires
      var (asked, links, signal) := LinksFor(w, o, text, own);
      && signal == Proceed && |fates[0]| == |links| && next.calls == asked.calls + 2 * |links|
      && forall j | 0 <= j < |links| :: LinkSettled(next.graph, text, owner, entities[0], links[j], fates[0][j])
    ensures Enriched(w, o, text, owner, own, entities, w', at, fates)
  {
    forall i | 0 <= i < |entities|
      ensures
        var (asked, links, signal) := Asked(w, at, i, o, text, own);
        && signal == Proceed && |fates[i]| == |links| && at[i + 1] == asked.calls + 2 * |links|
        && forall j | 0 <= j < |links| :: LinkSettled(w'.graph, text, owner, entities[i], links[j], fates[i][j])
    {
      if i == 0 {
        assert w.(calls := at[0]) == w;
      } else {
        SameAnswers(w, next, at[i], o, text, own);
        assert entities[i] == entities[1..][i - 1] && at[i] == at[1..][i - 1] && at[i + 1] == at[1..][i];
        assert fates[i] == fates[1..][i - 1];
        assert Asked(next, at[1..], i - 1, o, text, own).2 == Proceed;
      }
    }
  }

  lemma SameAnswers(w: World, v: World, c: nat, o: CommitOracle, text: Text, own: set<Uuid>)
    ensures
      var (a, links, signal) := LinksFor(w.(calls := c), o, text, own);
      var (b, same, also) := LinksFor(v.(calls := c), o, text, own);
      links == same && signal == also && a.calls == b.calls
  {
  }

  /** An enrich_node that returns, for all that it was asked to link. */
  lemma EnrichNodeDone(w: World, o: CommitOracle, text: Text, s: AgentState)
    returns (at: seq<nat>, fates: seq<seq<EdgeFate>>)
    requires Inv(w.graph) && InStep(w, s.committedEntities, s.committedRelationships) && s.created != []
    requires EnrichNode(w, o, text, s).2 == Proceed
    ensures
      var (w', u, _) := EnrichNode(w, o, text, s);
      && Enriched(w, o, text, s.owner, (set id | id in s.committedEntities), s.created, w', at, fates)
      && Overwrite(s, u) == s.(
           committedRelationships := s.committedRelationships + CommittedIds(Flat(fates)),
           skipped := s.skipped + SkipNotes(Flat(fates)))
  {
    var own := set id | id in s.committedEntities;
    at, fates := EnrichAllDone(w, o, text, s.owner, own, s.created, LinkWork(s.committedRelationships, s.skipped));
  }
}
