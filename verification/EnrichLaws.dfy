/** What enrich keeps, and the two nodes as wholes. */
module EnrichLaws {
  import opened Wrappers
  import opened KnowledgeGraph
  import opened GraphInvariants
  import opened AgentStates
  import opened Faults
  import opened CommitNodes
  import opened CommitLaws
  import R = ResearchLaws

  // ---- enrich ----

  lemma LinksForLaw(w: World, o: CommitOracle, text: Text, own: set<Uuid>, owner: UserId)
    ensures var w' := LinksFor(w, o, text, own).0; w' == w.(calls := w'.calls) && Extends(owner, w, w')
    ensures LinksFor(w, o, text, own).2 != Raised
  {
    SameWritesExtend(owner, w, LinksFor(w, o, text, own).0);
  }

  lemma {:induction false} EnrichLinksSafe(
    w: World, o: CommitOracle, text: Text, owner: UserId, entity: DigestEntity, links: seq<(string, string)>, k: LinkWork)
    requires Inv(w.graph) && InStep(w, w.entityIds, k.committed)
    ensures
      var (w', k', signal) := EnrichLinks(w, o, text, owner, entity, links, k);
      && Extends(owner, w, w') && Recorded(w')
      && (signal == Proceed ==> InStep(w', w.entityIds, k'.committed) && k.skipped <= k'.skipped)
    decreases links
  {
    if links == [] || text.parse(links[0].0) == None {
      SameWritesExtend(owner, w, w);
    } else {
      var target := text.parse(links[0].0).value;
      var refused := EnrichRefused(entity.name, links[0].0, NotLinkable);
      var (next, k1, s1) := MakeLink(w, o, owner, entity.id, target, links[0].1, k, refused);
      var fate := MakeLinkLaw(w, o, owner, entity.id, target, links[0].1, k, refused);
      if s1 == Proceed {
        ExtendsKeepsInv(owner, w, next);
        EnrichLinksSafe(next, o, text, owner, entity, links[1..], k1);
        ExtendsTransitive(owner, w, next, EnrichLinks(next, o, text, owner, entity, links[1..], k1).0);
      }
    }
  }

  lemma {:induction false} EnrichAllSafe(
    w: World, o: CommitOracle, text: Text, owner: UserId, own: set<Uuid>, entities: seq<DigestEntity>, k: LinkWork)
    requires Inv(w.graph) && InStep(w, w.entityIds, k.committed)
    ensures
      var (w', k', signal) := EnrichAll(w, o, text, owner, own, entities, k);
      && Extends(owner, w, w') && Recorded(w')
      && (signal == Proceed ==> InStep(w', w.entityIds, k'.committed) && k.skipped <= k'.skipped)
    decreases entities
  {
    if entities == [] {
      SameWritesExtend(owner, w, w);
    } else {
      var (asked, links, s1) := LinksFor(w, o, text, own);
      LinksForLaw(w, o, text, own, owner);
      if s1 == Proceed {
        var (next, k1, s2) := EnrichLinks(asked, o, text, owner, entities[0], links, k);
        EnrichLinksSafe(asked, o, text, owner, entities[0], links, k);
        ExtendsTransitive(owner, w, asked, next);
        if s2 == Proceed {
          ExtendsKeepsInv(owner, w, next);
          EnrichAllSafe(next, o, text, owner, own, entities[1..], k1);
          ExtendsTransitive(owner, w, next, EnrichAll(next, o, text, owner, own, entities[1..], k1).0);
        }
      }
    }
  }

  lemma {:induction false} OthersExact(near: seq<Uuid>, own: set<Uuid>)
    ensures forall id :: id in Others(near, own) <==> id in near && id !in own
  {
    if near != [] {
      assert near == near[..|near| - 1] + [near[|near| - 1]];
      OthersExact(near[..|near| - 1], own);
    }
  }

  lemma {:induction false} ValidExact(text: Text, links: seq<(string, string)>, valid: set<string>)
    ensures forall link :: link in ValidLinks(text, links, valid) <==> link in links && link.0 in valid
  {
    if links != [] {
      assert links == links[..|links| - 1] + [links[|links| - 1]];
      ValidExact(text, links[..|links| - 1], valid);
    }
  }

  /** A proposed link always reads back to an entity that the search found and the run did not create. */
  lemma LinksAreForeign(w: World, o: CommitOracle, text: Text, own: set<Uuid>)
    requires ReadsBack(text)
    ensures forall link | link in LinksFor(w, o, text, own).1 ::
      && text.parse(link.0).Some? && text.parse(link.0).value !in own
      && text.parse(link.0).value in o.near(w.calls + 1)
  {
    var near := o.near(w.calls + 1);
    var candidates := Candidates(near, own);
    OthersExact(near, own);
    forall link | link in LinksFor(w, o, text, own).1
      ensures text.parse(link.0).Some? && text.parse(link.0).value !in own && text.parse(link.0).value in near
    {
      ValidExact(text, o.links(w.calls + 2), CandidateIds(text, candidates));
      var id :| id in candidates && text.canonical(id) == link.0;
      assert text.parse(text.canonical(id)) == Some(id);
      assert id in Others(near, own);
    }
  }

  // ---- The nodes as wholes ----

  /** commit_node: however it ends, a private extension of the graph and a faithful record. */
  lemma CommitNodeSafe(w: World, o: CommitOracle, text: Text, s: AgentState)
    requires Inv(w.graph) && InStep(w, s.committedEntities, s.committedRelationships)
    ensures
      var (w', u, signal) := CommitNode(w, o, text, s);
      && Extends(s.owner, w, w') && Inv(w'.graph) && Recorded(w')
      && (signal == Proceed ==> InStep(w', Overwrite(s, u).committedEntities, Overwrite(s, u).committedRelationships)
                                && s.skipped <= Overwrite(s, u).skipped)
      && (signal != Proceed ==> u == NO_UPDATE)
  {
    var d := DraftsOf(s);
    var start := EntityWork(map[], s.committedEntities, [], []);
    CommitEntitiesSafe(w, o, s.owner, Urls(s.documents), d.entities, start);
    var (w1, e, s1) := CommitEntities(w, o, s.owner, Urls(s.documents), d.entities, start);
    ExtendsKeepsInv(s.owner, w, w1);
    if s1 == Proceed {
      var k := LinkWork(s.committedRelationships, []);
      CommitRelationshipsSafe(w1, o, text, s.owner, d.relationships, e.idMap, k);
      var w2 := CommitRelationships(w1, o, text, s.owner, d.relationships, e.idMap, k).0;
      ExtendsTransitive(s.owner, w, w1, w2);
      ExtendsKeepsInv(s.owner, w, w2);
    }
  }

  lemma EnrichNodeSafe(w: World, o: CommitOracle, text: Text, s: AgentState)
    requires Inv(w.graph) && InStep(w, s.committedEntities, s.committedRelationships)
    ensures
      var (w', u, signal) := EnrichNode(w, o, text, s);
      && Extends(s.owner, w, w') && Inv(w'.graph) && Recorded(w')
      && (signal == Proceed ==> InStep(w', Overwrite(s, u).committedEntities, Overwrite(s, u).committedRelationships)
                                && s.skipped <= Overwrite(s, u).skipped)
      && (signal != Proceed ==> u == NO_UPDATE)
  {
    if s.created == [] {
      SameWritesExtend(s.owner, w, w);
    } else {
      var own := set id | id in s.committedEntities;
      EnrichAllSafe(w, o, text, s.owner, own, s.created, LinkWork(s.committedRelationships, s.skipped));
      ExtendsKeepsInv(s.owner, w, EnrichNode(w, o, text, s).0);
    }
  }

  predicate BestEffortNote(note: Note) {
    note.AttachFailed? || note.EmbedFailed?
  }

  predicate AllBestEffort(notes: seq<Note>) {
    forall note | note in notes :: BestEffortNote(note)
  }

  lemma EntityNotes(w: World, o: CommitOracle, owner: UserId, urls: seq<Url>, draft: DraftEntity, k: EntityWork)
    requires AllBestEffort(k.skipped)
    ensures AllBestEffort(CommitEntity(w, o, owner, urls, draft, k).1.skipped)
  {
  }

  lemma {:induction false} EntitiesNotes(
    w: World, o: CommitOracle, owner: UserId, urls: seq<Url>, drafts: seq<DraftEntity>, k: EntityWork)
    requires AllBestEffort(k.skipped)
    ensures AllBestEffort(CommitEntities(w, o, owner, urls, drafts, k).1.skipped)
    decreases drafts
  {
    if drafts != [] {
      var (next, k', signal) := CommitEntity(w, o, owner, urls, drafts[0], k);
      EntityNotes(w, o, owner, urls, drafts[0], k);
      if signal == Proceed { EntitiesNotes(next, o, owner, urls, drafts[1..], k'); }
    }
  }

  /** What a commit_node that returns has done with every draft. */
  ghost predicate Settled(
    w: World, w': World, text: Text, s: AgentState, u: Update, ids: seq<Uuid>, fates: seq<EdgeFate>, bestEffort: seq<Note>)
  {
    var d := DraftsOf(s);
    && |ids| == |d.entities| && |fates| == |d.relationships|
    && AllDone(w, w', s.owner, d.entities, ids)
    && AllSettled(w'.graph, text, s.owner, MapAll(map[], d.entities, ids), d.relationships, fates)
    && u.committedEntities == Some(s.committedEntities + NewIds(d.entities, ids))
    && u.created == Some(NewDigests(d.entities, ids))
    && u.committedRelationships == Some(s.committedRelationships + CommittedIds(fates))
    && AllBestEffort(bestEffort) && u.skipped == Some(s.skipped + bestEffort + SkipNotes(fates))
  }

  lemma AllDoneStays(w: World, w1: World, w2: World, owner: UserId, drafts: seq<DraftEntity>, ids: seq<Uuid>)
    requires |ids| == |drafts| && AllDone(w, w1, owner, drafts, ids) && EntitiesKept(w1, w2)
    ensures AllDone(w, w2, owner, drafts, ids)
  {
    forall i | 0 <= i < |drafts| ensures DraftDone(w, w2, owner, drafts[i], ids[i]) {
      assert DraftDone(w, w1, owner, drafts[i], ids[i]);
    }
  }

  /** Each draft entity is linked or created private for the owner; each draft edge is in the graph or has one note. */
  lemma CommitNodeDone(w: World, o: CommitOracle, text: Text, s: AgentState)
    returns (ids: seq<Uuid>, fates: seq<EdgeFate>, bestEffort: seq<Note>)
    requires Inv(w.graph) && InStep(w, s.committedEntities, s.committedRelationships)
    requires CommitNode(w, o, text, s).2 == Proceed
    ensures Settled(w, CommitNode(w, o, text, s).0, text, s, CommitNode(w, o, text, s).1, ids, fates, bestEffort)
  {
    var d := DraftsOf(s);
    var start := EntityWork(map[], s.committedEntities, [], []);
    CommitEntitiesSafe(w, o, s.owner, Urls(s.documents), d.entities, start);
    ids := CommitEntitiesDone(w, o, s.owner, Urls(s.documents), d.entities, start);
    var (w1, e, _) := CommitEntities(w, o, s.owner, Urls(s.documents), d.entities, start);
    ExtendsKeepsInv(s.owner, w, w1);
    var k := LinkWork(s.committedRelationships, []);
    CommitRelationshipsSafe(w1, o, text, s.owner, d.relationships, e.idMap, k);
    fates := CommitRelationshipsDone(w1, o, text, s.owner, d.relationships, e.idMap, k);
    bestEffort := e.skipped;
    EntitiesNotes(w, o, s.owner, Urls(s.documents), d.entities, start);
    var (w2, l, _) := CommitRelationships(w1, o, text, s.owner, d.relationships, e.idMap, k);
    AllDoneStays(w, w1, w2, s.owner, d.entities, ids);
    assert [] + SkipNotes(fates) == SkipNotes(fates) && [] + NewDigests(d.entities, ids) == NewDigests(d.entities, ids);
  }

  // ---- References ----

  lemma {:induction false} MapKeys(idMap: map<string, Uuid>, drafts: seq<DraftEntity>, ids: seq<Uuid>)
    requires |ids| == |drafts|
    ensures MapAll(idMap, drafts, ids).Keys == idMap.Keys + R.TempIds(drafts)
    decreases drafts
  {
    if drafts != [] {
      MapKeys(idMap[drafts[0].tempId := ids[0]], drafts[1..], ids[1..]);
      assert forall e :: e in drafts <==> e == drafts[0] || e in drafts[1..];
      assert R.TempIds(drafts) == {drafts[0].tempId} + R.TempIds(drafts[1..]);
    }
  }

  /** Of drafts that share a temp_id the last one is what references resolve to. */
  lemma {:induction false} LastDraftWins(idMap: map<string, Uuid>, drafts: seq<DraftEntity>, ids: seq<Uuid>, i: nat)
    requires |ids| == |drafts| && i < |drafts|
    requires forall j | i < j < |drafts| :: drafts[j].tempId != drafts[i].tempId
    ensures drafts[i].tempId in MapAll(idMap, drafts, ids) && MapAll(idMap, drafts, ids)[drafts[i].tempId] == ids[i]
    decreases drafts
  {
    var next := idMap[drafts[0].tempId := ids[0]];
    if i > 0 {
      assert drafts[1..][i - 1] == drafts[i] && ids[1..][i - 1] == ids[i];
      assert forall j | i - 1 < j < |drafts[1..]| :: drafts[1..][j] == drafts[j + 1];
      LastDraftWins(next, drafts[1..], ids[1..], i - 1);
    } else {
      assert forall e | e in drafts[1..] :: e.tempId != drafts[0].tempId;
      Untouched(next, drafts[1..], ids[1..], drafts[0].tempId);
    }
  }

  lemma {:induction false} Untouched(idMap: map<string, Uuid>, drafts: seq<DraftEntity>, ids: seq<Uuid>, t: string)
    requires |ids| == |drafts| && t in idMap && forall e | e in drafts :: e.tempId != t
    ensures t in MapAll(idMap, drafts, ids) && MapAll(idMap, drafts, ids)[t] == idMap[t]
    decreases drafts
  {
    if drafts != [] {
      assert drafts[0] in drafts;
      Untouched(idMap[drafts[0].tempId := ids[0]], drafts[1..], ids[1..], t);
    }
  }

  /** An edge is skipped as unresolved exactly when one of its references names no draft and no id. */
  lemma UnresolvedExactly(
    w: World, w': World, text: Text, s: AgentState, u: Update, ids: seq<Uuid>, fates: seq<EdgeFate>, bestEffort: seq<Note>, i: nat)
    requires Settled(w, w', text, s, u, ids, fates, bestEffort) && i < |fates|
    ensures
      var edge := DraftsOf(s).relationships[i];
      var drafted := R.TempIds(DraftsOf(s).entities);
      var unresolved := fates[i].Skipped? && fates[i].note.UnresolvedEndpoint?;
      unresolved <==> !R.Resolvable(text, drafted, edge.fromRef) || !R.Resolvable(text, drafted, edge.toRef)
  {
    var d := DraftsOf(s);
    MapKeys(map[], d.entities, ids);
    assert EdgeSettled(w'.graph, text, s.owner, MapAll(map[], d.entities, ids), d.relationships[i], fates[i]);
  }

  lemma {:induction false} NoteHasFate(fates: seq<EdgeFate>, note: Note)
    requires note in SkipNotes(fates)
    ensures exists i :: 0 <= i < |fates| && fates[i] == Skipped(note)
  {
    if fates[0] == Skipped(note) {
    } else {
      NoteHasFate(fates[1..], note);
      var i :| 0 <= i < |fates[1..]| && fates[1..][i] == Skipped(note);
      assert fates[i + 1] == Skipped(note);
    }
  }

  /** So drafts that resolve, as those of an unedited run do, never leave that note. */
  lemma ResolvableLeavesNoNote(
    w: World, w': World, text: Text, s: AgentState, u: Update, ids: seq<Uuid>, fates: seq<EdgeFate>, bestEffort: seq<Note>)
    requires Settled(w, w', text, s, u, ids, fates, bestEffort) && R.AllResolvable(text, DraftsOf(s))
    ensures forall note | note in SkipNotes(fates) :: note.EdgeRefused?
  {
    forall note | note in SkipNotes(fates) ensures note.EdgeRefused? {
      NoteHasFate(fates, note);
      var i :| 0 <= i < |fates| && fates[i] == Skipped(note);
      UnresolvedExactly(w, w', text, s, u, ids, fates, bestEffort, i);
      assert EdgeSettled(w'.graph, text, s.owner, MapAll(map[], DraftsOf(s).entities, ids), DraftsOf(s).relationships[i], fates[i]);
    }
  }

  predicate AddsNoUnresolved(s: AgentState, u: Update) {
    && u.skipped.Some? && s.skipped <= u.skipped.value
    && forall note | note in u.skipped.value[|s.skipped|..] :: BestEffortNote(note) || note.EdgeRefused?
  }

  lemma ResolvableDraftsCommit(w: World, o: CommitOracle, text: Text, s: AgentState)
    requires Inv(w.graph) && InStep(w, s.committedEntities, s.committedRelationships)
    requires R.AllResolvable(text, DraftsOf(s)) && CommitNode(w, o, text, s).2 == Proceed
    ensures AddsNoUnresolved(s, CommitNode(w, o, text, s).1)
  {
    var ids, fates, bestEffort := CommitNodeDone(w, o, text, s);
    var (w', u, _) := CommitNode(w, o, text, s);
    ResolvableLeavesNoNote(w, w', text, s, u, ids, fates, bestEffort);
    assert (s.skipped + bestEffort + SkipNotes(fates))[|s.skipped|..] == bestEffort + SkipNotes(fates);
  }
}
