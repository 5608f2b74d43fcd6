/**
  How the jobs end.  Which calls decide the signal, what each signal writes on the row, what a run
  that succeeded has done, and that a run in which nothing fails does succeed.
 */
module RunEndings {
  import opened Wrappers
  import opened KnowledgeGraph
  import opened GraphInvariants
  import opened GraphRuns
  import opened AgentStates
  import N = ResearchNodes
  import opened AgentRow
  import opened Faults
  import opened ResearchRun
  import opened CommitNodes
  import opened CommitLaws
  import opened EnrichLaws
  import opened AgentRuns
  import opened RunRecords
  import opened CommitEffects
  import R = ResearchLaws

  // ---- The signal against the calls ----

  /** The deadline or a death ends a stretch of calls at the call it strikes; nothing else is one of them. */
  predicate Heard(fault: nat -> Fault, from: nat, to: nat, signal: Signal) {
    && from <= to
    && (signal == TimedOut ==> from < to && fault(to - 1).Deadline?)
    && (signal == Dead ==> from < to && fault(to - 1).Crash?)
    && forall n | from <= n < to && !(n == to - 1 && (signal == TimedOut || signal == Dead)) ::
         fault(n).Fine? || fault(n).Raise?
  }

  lemma HeardOn(fault: nat -> Fault, a: nat, b: nat, c: nat, signal: Signal)
    requires Heard(fault, a, b, Proceed) && Heard(fault, b, c, signal)
    ensures Heard(fault, a, c, signal)
  {
  }

  lemma StruckExactly(fault: nat -> Fault, from: nat, to: nat, signal: Signal)
    requires Heard(fault, from, to, signal)
    ensures (exists n | from <= n < to :: fault(n).Deadline?) <==> signal == TimedOut
    ensures (exists n | from <= n < to :: fault(n).Crash?) <==> signal == Dead
  {
  }

  lemma StoreHeard(w: World, o: CommitOracle, owner: UserId, draft: DraftEntity)
    ensures
      var (stored, s1) := StoreEntity(w, o, owner, draft);
      var (recorded, s2) := RecordEntity(stored, o, o.id(w.calls));
      && Heard(o.fault, w.calls, stored.calls, s1)
      && (s1 == Proceed ==> Heard(o.fault, w.calls, recorded.calls, s2))
  {
  }

  lemma BestEffortHeard(w: World, o: CommitOracle, owner: UserId, id: Uuid, urls: seq<Url>, name: string, skipped: seq<Note>)
    ensures
      var (attached, notes, s3) := TryAttach(w, o, owner, id, urls, skipped);
      var (embedded, _, s4) := TryEmbed(attached, o, name, notes);
      && Heard(o.fault, w.calls, attached.calls, s3)
      && (s3 == Proceed ==> Heard(o.fault, w.calls, embedded.calls, s4))
  {
  }

  lemma CommitEntityHeard(w: World, o: CommitOracle, owner: UserId, urls: seq<Url>, draft: DraftEntity, k: EntityWork)
    ensures var (w', _, signal) := CommitEntity(w, o, owner, urls, draft, k); Heard(o.fault, w.calls, w'.calls, signal)
  {
    if draft.existingId == None {
      var id := o.id(w.calls);
      var (stored, s1) := StoreEntity(w, o, owner, draft);
      var (recorded, s2) := RecordEntity(stored, o, id);
      StoreHeard(w, o, owner, draft);
      if s1 == Proceed && s2 == Proceed {
        BestEffortHeard(recorded, o, owner, id, urls, draft.name, k.skipped);
        var (w', _, signal) := CommitEntity(w, o, owner, urls, draft, k);
        HeardOn(o.fault, w.calls, recorded.calls, w'.calls, signal);
      }
    }
  }

  lemma {:induction false} CommitEntitiesHeard(
    w: World, o: CommitOracle, owner: UserId, urls: seq<Url>, drafts: seq<DraftEntity>, k: EntityWork)
    ensures var (w', _, signal) := CommitEntities(w, o, owner, urls, drafts, k); Heard(o.fault, w.calls, w'.calls, signal)
    decreases drafts
  {
    if drafts != [] {
      var (next, k1, s1) := CommitEntity(w, o, owner, urls, drafts[0], k);
      CommitEntityHeard(w, o, owner, urls, drafts[0], k);
      if s1 == Proceed { CommitEntitiesHeard(next, o, owner, urls, drafts[1..], k1); }
    }
  }

  lemma MakeLinkHeard(w: World, o: CommitOracle, owner: UserId, src: Uuid, dst: Uuid, kind: string, k: LinkWork, refused: Note)
    ensures
      var (w', _, signal) := MakeLink(w, o, owner, src, dst, kind, k, refused);
      Heard(o.fault, w.calls, w'.calls, signal)
  {
  }

  lemma {:induction false} CommitRelationshipsHeard(
    w: World, o: CommitOracle, text: Text, owner: UserId, edges: seq<DraftRelationship>, idMap: map<string, Uuid>, k: LinkWork)
    ensures
      var (w', _, signal) := CommitRelationships(w, o, text, owner, edges, idMap, k);
      Heard(o.fault, w.calls, w'.calls, signal)
    decreases edges
  {
    if edges != [] {
      var (next, k1, s1) := CommitRelationship(w, o, text, owner, edges[0], idMap, k);
      if Resolves(text, idMap, edges[0]) {
        MakeLinkHeard(w, o, owner, ResolveRef(text, idMap, edges[0].fromRef).value,
          ResolveRef(text, idMap, edges[0].toRef).value, edges[0].kind, k, EdgeRefused(edges[0].fromRef, edges[0].toRef, NotLinkable));
      }
      assert Heard(o.fault, w.calls, next.calls, s1);
      if s1 == Proceed { CommitRelationshipsHeard(next, o, text, owner, edges[1..], idMap, k1); }
    }
  }

  lemma CommitNodeHeard(w: World, o: CommitOracle, text: Text, s: AgentState)
    ensures var (w', _, signal) := CommitNode(w, o, text, s); Heard(o.fault, w.calls, w'.calls, signal)
  {
    var d := DraftsOf(s);
    var start := EntityWork(map[], s.committedEntities, [], []);
    CommitEntitiesHeard(w, o, s.owner, Urls(s.documents), d.entities, start);
    var (w1, e, s1) := CommitEntities(w, o, s.owner, Urls(s.documents), d.entities, start);
    if s1 == Proceed {
      CommitRelationshipsHeard(w1, o, text, s.owner, d.relationships, e.idMap, LinkWork(s.committedRelationships, []));
    }
  }

  lemma LinksForHeard(w: World, o: CommitOracle, text: Text, own: set<Uuid>)
    ensures var (w', _, signal) := LinksFor(w, o, text, own); Heard(o.fault, w.calls, w'.calls, signal)
  {
  }

  lemma {:induction false} EnrichLinksHeard(
    w: World, o: CommitOracle, text: Text, owner: UserId, from: DigestEntity, links: seq<(string, string)>, k: LinkWork)
    ensures
      var (w', _, signal) := EnrichLinks(w, o, text, owner, from, links, k);
      Heard(o.fault, w.calls, w'.calls, signal)
    decreases links
  {
    if links != [] && text.parse(links[0].0).Some? {
      var target, refused := text.parse(links[0].0).value, EnrichRefused(from.name, links[0].0, NotLinkable);
      var (next, k1, s1) := MakeLink(w, o, owner, from.id, target, links[0].1, k, refused);
      MakeLinkHeard(w, o, owner, from.id, target, links[0].1, k, refused);
      if s1 == Proceed { EnrichLinksHeard(next, o, text, owner, from, links[1..], k1); }
    }
  }

  lemma {:induction false} EnrichAllHeard(
    w: World, o: CommitOracle, text: Text, owner: UserId, own: set<Uuid>, entities: seq<DigestEntity>, k: LinkWork)
    ensures
      var (w', _, signal) := EnrichAll(w, o, text, owner, own, entities, k);
      Heard(o.fault, w.calls, w'.calls, signal)
    decreases entities
  {
    if entities != [] {
      var (asked, links, s1) := LinksFor(w, o, text, own);
      LinksForHeard(w, o, text, own);
      if s1 == Proceed {
        var (next, k1, s2) := EnrichLinks(asked, o, text, owner, entities[0], links, k);
        EnrichLinksHeard(asked, o, text, owner, entities[0], links, k);
        if s2 == Proceed { EnrichAllHeard(next, o, text, owner, own, entities[1..], k1); }
      }
    }
  }

  lemma EnrichNodeHeard(w: World, o: CommitOracle, text: Text, s: AgentState)
    ensures var (w', _, signal) := EnrichNode(w, o, text, s); Heard(o.fault, w.calls, w'.calls, signal)
  {
    if s.created != [] {
      EnrichAllHeard(w, o, text, s.owner, (set id | id in s.committedEntities), s.created, LinkWork(s.committedRelationships, s.skipped));
    }
  }

  /** The commit phase is timed out, or dead, exactly if the last call it made was struck so; no earlier one was. */
  lemma CommitParkedHeard(s: AgentState, c: CommitOracle, text: Text, w: World)
    ensures var (_, w', signal) := CommitParked(s, c, text, w); Heard(c.fault, w.calls, w'.calls, signal)
  {
    var (w1, u, s1) := CommitNode(w, c, text, s);
    CommitNodeHeard(w, c, text, s);
    if s1 == Proceed { EnrichNodeHeard(w1, c, text, Overwrite(s, u)); }
  }

  // ---- When nothing fails ----

  ghost predicate AllFine(fault: nat -> Fault) {
    forall n :: fault(n) == Fault.Fine
  }

  /** The ids still to be handed out are new to the graph, and each is handed out once. */
  ghost predicate FreshIds(o: CommitOracle, w: World) {
    && (forall n | w.calls <= n :: o.id(n) !in w.graph.entities)
    && forall m, n | w.calls <= m < n :: o.id(m) != o.id(n)
  }

  lemma StoreFine(w: World, o: CommitOracle, owner: UserId, draft: DraftEntity)
    requires AllFine(o.fault) && FreshIds(o, w)
    ensures
      var (stored, s1) := StoreEntity(w, o, owner, draft);
      var (recorded, s2) := RecordEntity(stored, o, o.id(w.calls));
      s1 == s2 == Proceed && recorded.calls == w.calls + 2 && recorded.graph.entities.Keys == w.graph.entities.Keys + {o.id(w.calls)}
  {
  }

  lemma BestEffortFine(w: World, o: CommitOracle, owner: UserId, id: Uuid, urls: seq<Url>, name: string, skipped: seq<Note>)
    requires Inv(w.graph) && AllFine(o.fault) && id in w.graph.entities && !IsPublic(w.graph, id)
    ensures
      var (attached, notes, s3) := TryAttach(w, o, owner, id, urls, skipped);
      var (embedded, _, s4) := TryEmbed(attached, o, name, notes);
      s3 == s4 == Proceed && embedded.calls >= w.calls && embedded.graph.entities == w.graph.entities
  {
    TryAttachLaw(w, o, owner, id, urls, skipped);
  }

  lemma CommitEntityFine(w: World, o: CommitOracle, owner: UserId, urls: seq<Url>, draft: DraftEntity, k: EntityWork)
    requires Inv(w.graph) && Exact(w) && AllFine(o.fault) && FreshIds(o, w)
    ensures CommitEntity(w, o, owner, urls, draft, k).2 == Proceed && FreshIds(o, CommitEntity(w, o, owner, urls, draft, k).0)
  {
    if draft.existingId == None {
      var id := o.id(w.calls);
      var recorded := RecordEntity(StoreEntity(w, o, owner, draft).0, o, id).0;
      StoreFine(w, o, owner, draft);
      StoreThenRecord(w, o, owner, draft);
      BestEffortFine(recorded, o, owner, id, urls, draft.name, k.skipped);
    }
  }

  lemma {:induction false} CommitEntitiesFine(
    w: World, o: CommitOracle, owner: UserId, urls: seq<Url>, drafts: seq<DraftEntity>, k: EntityWork)
    requires Inv(w.graph) && InStep(w, k.committed, w.relationshipIds) && AllFine(o.fault) && FreshIds(o, w)
    ensures CommitEntities(w, o, owner, urls, drafts, k).2 == Proceed
    decreases drafts
  {
    if drafts != [] {
      var (next, k1, _) := CommitEntity(w, o, owner, urls, drafts[0], k);
      CommitEntityFine(w, o, owner, urls, drafts[0], k);
      var id := CommitEntityLaw(w, o, owner, urls, drafts[0], k);
      ExtendsKeepsInv(owner, w, next);
      CommitEntitiesFine(next, o, owner, urls, drafts[1..], k1);
    }
  }

  lemma {:induction false} CommitRelationshipsFine(
    w: World, o: CommitOracle, text: Text, owner: UserId, edges: seq<DraftRelationship>, idMap: map<string, Uuid>, k: LinkWork)
    requires AllFine(o.fault)
    ensures CommitRelationships(w, o, text, owner, edges, idMap, k).2 == Proceed
    decreases edges
  {
    if edges != [] {
      var (next, k1, _) := CommitRelationship(w, o, text, owner, edges[0], idMap, k);
      CommitRelationshipsFine(next, o, text, owner, edges[1..], idMap, k1);
    }
  }

  lemma CommitNodeFine(w: World, o: CommitOracle, text: Text, s: AgentState)
    requires Inv(w.graph) && InStep(w, s.committedEntities, s.committedRelationships) && AllFine(o.fault) && FreshIds(o, w)
    ensures CommitNode(w, o, text, s).2 == Proceed
  {
    var d := DraftsOf(s);
    var start := EntityWork(map[], s.committedEntities, [], []);
    CommitEntitiesFine(w, o, s.owner, Urls(s.documents), d.entities, start);
    var (w1, e, _) := CommitEntities(w, o, s.owner, Urls(s.documents), d.entities, start);
    CommitRelationshipsFine(w1, o, text, s.owner, d.relationships, e.idMap, LinkWork(s.committedRelationships, []));
  }

  lemma {:induction false} EnrichLinksFine(
    w: World, o: CommitOracle, text: Text, owner: UserId, from: DigestEntity, links: seq<(string, string)>, k: LinkWork)
    requires AllFine(o.fault) && forall link | link in links :: text.parse(link.0).Some?
    ensures EnrichLinks(w, o, text, owner, from, links, k).2 == Proceed
    decreases links
  {
    if links != [] {
      assert links[0] in links;
      var target, refused := text.parse(links[0].0).value, EnrichRefused(from.name, links[0].0, NotLinkable);
      var (next, k1, _) := MakeLink(w, o, owner, from.id, target, links[0].1, k, refused);
      EnrichLinksFine(next, o, text, owner, from, links[1..], k1);
    }
  }

  lemma {:induction false} EnrichAllFine(
    w: World, o: CommitOracle, text: Text, owner: UserId, own: set<Uuid>, entities: seq<DigestEntity>, k: LinkWork)
    requires AllFine(o.fault) && ReadsBack(text)
    ensures EnrichAll(w, o, text, owner, own, entities, k).2 == Proceed
    decreases entities
  {
    if entities != [] {
      var (asked, links, _) := LinksFor(w, o, text, own);
      LinksAreForeign(w, o, text, own);
      EnrichLinksFine(asked, o, text, owner, entities[0], links, k);
      var (next, k1, _) := EnrichLinks(asked, o, text, owner, entities[0], links, k);
      EnrichAllFine(next, o, text, owner, own, entities[1..], k1);
    }
  }

  lemma EnrichNodeFine(w: World, o: CommitOracle, text: Text, s: AgentState)
    requires AllFine(o.fault) && ReadsBack(text)
    ensures EnrichNode(w, o, text, s).2 == Proceed
  {
    if s.created != [] {
      EnrichAllFine(w, o, text, s.owner, (set id | id in s.committedEntities), s.created, LinkWork(s.committedRelationships, s.skipped));
    }
  }

  // ---- What the row says ----

  /** What a job that wrote its last word left, by the signal its guarded body ended with; `heard` as far as its driver knew. */
  ghost predicate Ended(before: Row, after: Row, heard: World, w: World, analysis: string, notes: seq<Note>, signal: Signal) {
    && (signal == Proceed <==> after.status == Succeeded)
    && (signal == Raised <==> after.status == RunFailed && after.error == Some(NodeRaised))
    && (signal == TimedOut <==> after.status == RunFailed && after.error == Some(DeadlineExceeded))
    && (signal == Dead <==> after.status == Running)
    && (signal == Proceed ==>
          after == before.(status := Succeeded, currentNode := None,
            entityIds := EntityWrites(w.writes), relationshipIds := LinkWrites(w.writes),
            result := Some(Summary(analysis, |EntityWrites(w.writes)|, |LinkWrites(w.writes)|, notes))))
    && (signal == Raised || signal == TimedOut ==>
          after == before.(status := RunFailed, error := after.error,
            entityIds := EntityWrites(heard.writes), relationshipIds := LinkWrites(heard.writes)))
    && (signal == Dead ==> Appended(before, after, w))
  }

  /** Nothing but the appends of the commit phase. */
  ghost predicate Appended(before: Row, after: Row, w: World) {
    after == before.(entityIds := w.entityIds, relationshipIds := w.relationshipIds)
  }

  lemma ConcludeEnds(owner: UserId, w: World, s: AgentState, row: Row, heard: World, w': World, signal: Signal, last: Fault)
    requires Sound(owner, w, s, heard, w', signal) && row.status == Running
    ensures
      var after := Conclude(s, row, w', signal, last);
      if last.Fine? || last.applied
      then Ended(row, after, heard, w', if s.analysis.Some? then s.analysis.value else "", s.skipped, signal)
      else Appended(row, after, w')
  {
  }

  /**
    commit_agent_run, once started and if its last write goes through: succeeded exactly if the commit
    phase came to its end, failed with the deadline exactly if one of its calls met it, still running
    exactly if one of them was its death, and failed with the node's exception otherwise.
   */
  lemma ResumedRunEnds(c: CommitOracle, text: Text, last: Fault, owner: UserId, row: Row, w: World)
    requires row.status == Running && NothingWritten(w)
    ensures
      var out := RunCommit(c, text, Ends(Fault.Fine, last), owner, row, w);
      var (s, w', signal) := CommitParked(ResumeState(owner, row), c, text, w);
      var analysis := if row.result.Some? then row.result.value.analysis else "";
      && out.world == w' && Heard(c.fault, w.calls, w'.calls, signal)
      && (if last.Fine? || last.applied
          then Ended(row, out.row, HeardParked(ResumeState(owner, row), c, text, w), w', analysis, s.skipped, signal)
          else Appended(row, out.row, w'))
      && ((exists n | w.calls <= n < w'.calls :: c.fault(n).Deadline?) <==> signal == TimedOut)
      && ((exists n | w.calls <= n < w'.calls :: c.fault(n).Crash?) <==> signal == Dead)
  {
    var start := ResumeState(owner, row);
    CommitParkedSound(start, c, text, w);
    CommitParkedHeard(start, c, text, w);
    AnalysisStays(start, c, text, w);
    var (s, w', signal) := CommitParked(start, c, text, w);
    StruckExactly(c.fault, w.calls, w'.calls, signal);
    ConcludeEnds(owner, w, s, row, HeardParked(start, c, text, w), w', signal, last);
  }

  lemma AnalysisStays(s: AgentState, c: CommitOracle, text: Text, w: World)
    ensures CommitParked(s, c, text, w).0.analysis == s.analysis
  {
    var (w', u, signal) := CommitNode(w, c, text, s);
    CommitUpdatesShaped(w, c, text, s);
    if signal == Proceed { CommitUpdatesShaped(w', c, text, Overwrite(s, u)); }
  }

  /** With every call going through and every id new, the job succeeds. */
  lemma HealthyResumedRunSucceeds(c: CommitOracle, text: Text, owner: UserId, row: Row, w: World)
    requires row.status == Running && NothingWritten(w) && AllFine(c.fault) && FreshIds(c, w) && ReadsBack(text)
    ensures RunCommit(c, text, Ends(Fault.Fine, Fault.Fine), owner, row, w).row.status == Succeeded
  {
    var s := ResumeState(owner, row);
    CommitNodeFine(w, c, text, s);
    var (w', u, _) := CommitNode(w, c, text, s);
    EnrichNodeFine(w', c, text, Overwrite(s, u));
    ResumedRunEnds(c, text, Fault.Fine, owner, row, w);
  }

  /** The commit phase, if it went through, has settled every draft and every link that was proposed. */
  lemma CommitPhaseSettles(c: CommitOracle, text: Text, s: AgentState, w: World)
    returns (ids: seq<Uuid>, fates: seq<EdgeFate>, bestEffort: seq<Note>, at: seq<nat>, links: seq<seq<EdgeFate>>)
    requires NothingWritten(w) && s.committedEntities == [] && s.committedRelationships == []
    requires CommitParked(s, c, text, w).2 == Proceed
    ensures
      var (w1, u, _) := CommitNode(w, c, text, s);
      var s1, (s2, w2, _) := Overwrite(s, u), CommitParked(s, c, text, w);
      && Settled(w, w1, text, s, u, ids, fates, bestEffort) && Grown(w1.graph, w2.graph)
      && (if s1.created == [] then links == []
          else Enriched(w1, c, text, s.owner, (set id | id in s1.committedEntities), s1.created, w2, at, links))
      && s2.committedEntities == s1.committedEntities
      && s2.committedRelationships == s1.committedRelationships + CommittedIds(Flat(links))
      && s2.skipped == s1.skipped + SkipNotes(Flat(links))
  {
    var (w1, u, _) := CommitNode(w, c, text, s);
    var s1 := Overwrite(s, u);
    ids, fates, bestEffort := CommitNodeDone(w, c, text, s);
    CommitNodeSafe(w, c, text, s);
    CommitOnlyAdds(w1, c, text, s1);
    at, links := [], [];
    if s1.created != [] {
      at, links := EnrichNodeDone(w1, c, text, s1);
    } else {
      assert s1.committedRelationships + [] == s1.committedRelationships && s1.skipped + [] == s1.skipped;
    }
  }

  /** A job that succeeded has settled every draft of the row and every link that was proposed, and says so. */
  lemma SucceededRunIsSettled(c: CommitOracle, text: Text, last: Fault, owner: UserId, row: Row, w: World)
    returns (ids: seq<Uuid>, fates: seq<EdgeFate>, bestEffort: seq<Note>, at: seq<nat>, links: seq<seq<EdgeFate>>)
    requires row.status == Running && NothingWritten(w)
    requires RunCommit(c, text, Ends(Fault.Fine, last), owner, row, w).row.status == Succeeded
    ensures
      var s := ResumeState(owner, row);
      var (w1, u, _) := CommitNode(w, c, text, s);
      var s1, out := Overwrite(s, u), RunCommit(c, text, Ends(Fault.Fine, last), owner, row, w);
      && Settled(w, w1, text, s, u, ids, fates, bestEffort) && Grown(w1.graph, out.world.graph)
      && (if s1.created == [] then links == []
          else Enriched(w1, c, text, owner, (set id | id in s1.committedEntities), s1.created, out.world, at, links))
      && out.row.entityIds == NewIds(DraftsOf(s).entities, ids)
      && out.row.relationshipIds == CommittedIds(fates) + CommittedIds(Flat(links))
      && out.row.result.Some?
      && out.row.result.value.skipped == s.skipped + bestEffort + SkipNotes(fates) + SkipNotes(Flat(links))
  {
    var s := ResumeState(owner, row);
    SucceededMeansProceed(s, row, c, text, last, w);
    ids, fates, bestEffort, at, links := CommitPhaseSettles(c, text, s, w);
    assert [] + NewIds(DraftsOf(s).entities, ids) == NewIds(DraftsOf(s).entities, ids);
    assert [] + CommittedIds(fates) == CommittedIds(fates);
  }

  lemma SucceededMeansProceed(s: AgentState, row: Row, c: CommitOracle, text: Text, last: Fault, w: World)
    requires row.status == Running
    ensures
      var (s2, w2, signal) := CommitParked(s, c, text, w);
      var after := Conclude(s2, row, w2, signal, last);
      after.status == Succeeded ==>
        && signal == Proceed && after.entityIds == s2.committedEntities && after.relationshipIds == s2.committedRelationships
        && after.result.Some? && after.result.value.skipped == s2.skipped
  {
  }

  // ---- Research: progress and signal ----

  /** The first n calls all went through. */
  ghost predicate Through(fault: nat -> Fault, n: int) {
    forall i | 0 <= i < n :: fault(i) == Fault.Fine
  }

  /** Every visit and every progress write went through, or the last of one of them is what stopped the phase. */
  ghost predicate Stopped(o: Oracle, d: Drive) {
    && Through(o.visit, |d.visits| - 1) && Through(o.mark, d.marks - 1)
    && (if d.signal == Proceed then Through(o.visit, |d.visits|) && Through(o.mark, d.marks)
        else
          || (|d.visits| > 0 && o.visit(|d.visits| - 1) != Fault.Fine && d.signal == Strike(o.visit(|d.visits| - 1)))
          || (d.marks > 0 && o.mark(d.marks - 1) != Fault.Fine && d.signal == Strike(o.mark(d.marks - 1))))
  }

  lemma {:induction false} PersistStopped(d: Drive, o: Oracle, node: Node, us: seq<Update>)
    requires Stopped(o, d)
    ensures Stopped(o, Persist(d, o, node, us))
    decreases us
  {
    if us != [] && d.signal == Proceed { PersistStopped(PersistOne(d, o, node, us[0]), o, node, us[1..]); }
  }

  lemma VisitStopped(deps: N.Deps, o: Oracle, k: nat, node: Node, d: Drive)
    requires Stopped(o, d) && d.signal == Proceed && k == |d.visits|
    ensures Stopped(o, VisitOnce(deps, o, k, node, d)) && |VisitOnce(deps, o, k, node, d).visits| == k + 1
  {
    VisitAdvances(deps, o, k, node, d);
    if o.visit(k) == Fault.Fine {
      var us := Visit(deps, node, d.state, o.answer(k));
      var state := ReduceAll(d.state, us);
      PersistStopped(d.(visits := d.visits + [node], state := state, states := d.states + [state]), o, node, us);
    }
  }

  /** The marks of a node other than plan touch the current node only, and the last one is that node's. */
  lemma {:induction false} PersistMarks(d: Drive, o: Oracle, node: Node, us: seq<Update>)
    requires node != Node.Plan
    ensures
      var p := Persist(d, o, node, us);
      && p.row == d.row.(currentNode := p.row.currentNode)
      && (d.signal == p.signal == Proceed && us != [] ==> p.row.currentNode == Some(node))
    decreases us
  {
    if us != [] && d.signal == Proceed { PersistMarks(PersistOne(d, o, node, us[0]), o, node, us[1..]); }
  }

  lemma VisitMarks(deps: N.Deps, o: Oracle, k: nat, node: Node, d: Drive)
    requires d.signal == Proceed && node != Node.Plan
    ensures
      var v := VisitOnce(deps, o, k, node, d);
      && v.row == d.row.(currentNode := v.row.currentNode)
      && (node == Lookup && v.signal == Proceed ==> v.row.currentNode == Some(Lookup))
  {
    if o.visit(k) == Fault.Fine {
      var us := Visit(deps, node, d.state, o.answer(k));
      var state := ReduceAll(d.state, us);
      PersistMarks(d.(visits := d.visits + [node], state := state, states := d.states + [state]), o, node, us);
    }
  }

  lemma {:induction false} ResearchStopped(deps: N.Deps, o: Oracle, k: nat, node: Node, d: Drive)
    requires OnTrack(deps, node, d.state) && Stopped(o, d) && d.signal == Proceed && k == |d.visits|
    ensures Stopped(o, Research(deps, o, k, node, d))
    decreases Stage(node), Retries(deps, node, d.state), if node == Search || node == Structure then 1 else 0
  {
    if Stage(node) > 0 {
      var v := VisitOnce(deps, o, k, node, d);
      VisitAdvances(deps, o, k, node, d);
      VisitStopped(deps, o, k, node, d);
      if v.signal == Proceed {
        StaysOnTrack(deps, node, d.state, o.answer(k));
        ResearchStopped(deps, o, k + 1, Next(deps, node, v.state), v);
      }
    }
  }

  lemma {:induction false} ResearchMarks(deps: N.Deps, o: Oracle, k: nat, node: Node, d: Drive)
    requires OnTrack(deps, node, d.state) && Stage(node) > 0 && node != Node.Plan && d.signal == Proceed
    ensures
      var r := Research(deps, o, k, node, d);
      && r.row == d.row.(currentNode := r.row.currentNode)
      && (r.signal == Proceed ==> r.row.currentNode == Some(Lookup))
    decreases Stage(node), Retries(deps, node, d.state), if node == Search || node == Structure then 1 else 0
  {
    var v := VisitOnce(deps, o, k, node, d);
    VisitAdvances(deps, o, k, node, d);
    VisitMarks(deps, o, k, node, d);
    if v.signal == Proceed {
      StaysOnTrack(deps, node, d.state, o.answer(k));
      R.OnlyLookupEnds(deps, node, v.state);
      if node != Lookup { ResearchMarks(deps, o, k + 1, Next(deps, node, v.state), v); }
    }
  }

  lemma PersistSingle(d: Drive, o: Oracle, node: Node, u: Update)
    requires d.signal == Proceed
    ensures Persist(d, o, node, [u]) == PersistOne(d, o, node, u)
  {
    assert [u][1..] == [];
  }

  lemma PlanVisit(deps: N.Deps, o: Oracle, owner: UserId, row: Row)
    ensures
      var v := VisitOnce(deps, o, 0, Node.Plan, StartDrive(owner, row));
      && v.row == row.(currentNode := v.row.currentNode, plan := v.row.plan)
      && (v.signal == Proceed ==> v.row.plan == Some(o.answer(0).plan))
  {
    var start := StartDrive(owner, row);
    var u := NO_UPDATE.(plan := Some(o.answer(0).plan));
    var state := ReduceAll(start.state, [u]);
    PersistSingle(start.(visits := start.visits + [Node.Plan], state := state, states := start.states + [state]), o, Node.Plan, u);
  }

  /**
    The row after research: running, at lookup, and with the plan as it was first made, whatever the
    queries were broadened to; and what stopped it if it was stopped.
   */
  lemma ResearchEnds(deps: N.Deps, o: Oracle, owner: UserId, row: Row)
    ensures
      var d := ResearchOf(deps, o, owner, row);
      && Stopped(o, d)
      && d.row == row.(status := Running, error := None, currentNode := d.row.currentNode, plan := d.row.plan)
      && (d.signal == Proceed ==> d.row.currentNode == Some(Lookup) && d.row.plan == Some(o.answer(0).plan))
  {
    var start := StartDrive(owner, MarkRunning(row));
    ResearchStopped(deps, o, 0, Node.Plan, start);
    var v := VisitOnce(deps, o, 0, Node.Plan, start);
    VisitAdvances(deps, o, 0, Node.Plan, start);
    PlanVisit(deps, o, owner, MarkRunning(row));
    if v.signal == Proceed {
      StaysOnTrack(deps, Node.Plan, start.state, o.answer(0));
      ResearchMarks(deps, o, 1, Survey, v);
    }
  }

  // ---- run_agent ----

  ghost function DirectSignal(deps: N.Deps, o: Oracle, c: CommitOracle, owner: UserId, row: Row, w: World): Signal {
    var d := ResearchOf(deps, o, owner, row);
    if d.signal != Proceed then d.signal else CommitInGraph(d, o, c, deps.text, w).0.signal
  }

  ghost function DirectState(deps: N.Deps, o: Oracle, c: CommitOracle, owner: UserId, row: Row, w: World): AgentState {
    var d := ResearchOf(deps, o, owner, row);
    if d.signal != Proceed then d.shadow else CommitInGraph(d, o, c, deps.text, w).0.shadow
  }

  /** run_agent without review ends by its signal, from a row that only its progress writes have touched. */
  lemma DirectRunEnds(deps: N.Deps, o: Oracle, c: CommitOracle, last: Fault, owner: UserId, row: Row, w: World)
    requires row.status == Queued && NothingWritten(w)
    ensures
      var out := RunDirect(deps, o, c, Ends(Fault.Fine, last), owner, row, w);
      var s, signal := DirectState(deps, o, c, owner, row, w), DirectSignal(deps, o, c, owner, row, w);
      var analysis := if s.analysis.Some? then s.analysis.value else "";
      exists node, plan ::
        var before := row.(status := Running, error := None, currentNode := node, plan := plan);
        if last.Fine? || last.applied
        then Ended(before, out.row, HeardDirect(deps, o, c, Ends(Fault.Fine, last), owner, row, w), out.world, analysis, s.skipped, signal)
        else Appended(before, out.row, out.world)
  {
    var d := ResearchOf(deps, o, owner, row);
    ResearchEnds(deps, o, owner, row);
    SameWritesExtend(owner, w, w);
    R.ResearchCommitsNothing(deps, o, 0, Node.Plan, StartDrive(owner, MarkRunning(row)), owner);
    if d.signal != Proceed {
      StillSound(owner, w, w, d.shadow, w, d.signal);
      ConcludeEnds(owner, w, d.shadow, d.row, w, w, d.signal, last);
    } else {
      ResearchedInStep(deps, o, owner, row, w);
      CommitInGraphSound(d, o, c, deps.text, w, owner);
      var (d', w') := CommitInGraph(d, o, c, deps.text, w);
      ConcludeEnds(owner, w, d'.shadow, d'.row, HeardInGraph(d, o, c, deps.text, w), w', d'.signal, last);
    }
  }

  lemma {:induction false} PersistFine(d: Drive, o: Oracle, node: Node, us: seq<Update>)
    requires d.signal == Proceed && AllFine(o.mark)
    ensures Persist(d, o, node, us).signal == Proceed
    decreases us
  {
    if us != [] { PersistFine(PersistOne(d, o, node, us[0]), o, node, us[1..]); }
  }

  lemma {:induction false} ResearchFine(deps: N.Deps, o: Oracle, k: nat, node: Node, d: Drive)
    requires OnTrack(deps, node, d.state) && d.signal == Proceed && AllFine(o.visit) && AllFine(o.mark)
    ensures Research(deps, o, k, node, d).signal == Proceed
    decreases Stage(node), Retries(deps, node, d.state), if node == Search || node == Structure then 1 else 0
  {
    if Stage(node) > 0 {
      var us := Visit(deps, node, d.state, o.answer(k));
      var state := ReduceAll(d.state, us);
      PersistFine(d.(visits := d.visits + [node], state := state, states := d.states + [state]), o, node, us);
      VisitAdvances(deps, o, k, node, d);
      StaysOnTrack(deps, node, d.state, o.answer(k));
      var v := VisitOnce(deps, o, k, node, d);
      ResearchFine(deps, o, k + 1, Next(deps, node, v.state), v);
    }
  }

  /** With nothing failing, the run without review succeeds as well. */
  lemma HealthyDirectRunSucceeds(deps: N.Deps, o: Oracle, c: CommitOracle, owner: UserId, row: Row, w: World)
    requires row.status == Queued && NothingWritten(w) && AllFine(c.fault) && FreshIds(c, w) && ReadsBack(deps.text)
    requires AllFine(o.visit) && AllFine(o.mark)
    ensures RunDirect(deps, o, c, Ends(Fault.Fine, Fault.Fine), owner, row, w).row.status == Succeeded
  {
    var d := ResearchOf(deps, o, owner, row);
    ResearchFine(deps, o, 0, Node.Plan, StartDrive(owner, MarkRunning(row)));
    ResearchedInStep(deps, o, owner, row, w);
    CommitNodeFine(w, c, deps.text, d.state);
    var (w', u, _) := CommitNode(w, c, deps.text, d.state);
    EnrichNodeFine(w', c, deps.text, Streamed(d, o, Commit, u).state);
    DirectRunEnds(deps, o, c, Fault.Fine, owner, row, w);
  }

  // ---- Jobs that never start ----

  /**
    If the first write fails, run_agent has marked the row running or left it, as the write took effect or
    not, and done nothing else; commit_agent_run nothing at all.
   */
  lemma UnstartedRunsEnd(deps: N.Deps, o: Oracle, c: CommitOracle, e: Ends, owner: UserId, row: Row, w: World)
    requires e.first != Fault.Fine && row.entityIds == w.entityIds && row.relationshipIds == w.relationshipIds
    ensures
      var marked := if e.first.applied then row.(status := Running, currentNode := None, error := None) else row;
      && RunDirect(deps, o, c, e, owner, row, w) == Outcome(marked, w)
      && RunReviewed(deps, o, e, owner, row, w) == marked
      && RunCommit(c, deps.text, e, owner, row, w) == Outcome(row, w)
  {
  }

  // ---- Between the two jobs ----

  /** run_agent with review: the row it parks, field by field, or how it ended before that; and never a write. */
  lemma ReviewedRunEnds(deps: N.Deps, o: Oracle, last: Fault, owner: UserId, row: Row, w: World)
    requires row.status == Queued && NothingWritten(w) && row.entityIds == [] && row.relationshipIds == []
    ensures
      var d, after := ResearchOf(deps, o, owner, row), RunReviewed(deps, o, Ends(Fault.Fine, last), owner, row, w);
      var s := d.shadow;
      && after.entityIds == [] && after.relationshipIds == []
      && (!(last.Fine? || last.applied) || d.signal == Dead ==> after == d.row)
      && (last.Fine? || last.applied ==>
            && (d.signal == Raised ==> after == d.row.(status := RunFailed, error := Some(NodeRaised)))
            && (d.signal == TimedOut ==> after == d.row.(status := RunFailed, error := Some(DeadlineExceeded)))
            && (d.signal == Proceed ==>
                  && after == d.row.(status := AwaitingReview, currentNode := None,
                       pending := Some(if s.structured.Some? then s.structured.value else Drafts([], [])),
                       result := Some(Summary(if s.analysis.Some? then s.analysis.value else "", 0, 0, s.skipped)),
                       sourceUrls := after.sourceUrls)
                  && |after.sourceUrls| == |s.documents|
                  && forall i | 0 <= i < |s.documents| :: after.sourceUrls[i] == s.documents[i].url))
  {
    ResearchEnds(deps, o, owner, row);
    R.ResearchCommitsNothing(deps, o, 0, Node.Plan, StartDrive(owner, MarkRunning(row)), owner);
  }

  /** What a commit job starts from: the row's drafts, urls, analysis and notes, and nothing committed. */
  lemma ResumeReads(owner: UserId, row: Row)
    ensures
      var s := ResumeState(owner, row);
      && s == AgentState(owner, None, None, [], 0, s.documents, [], s.analysis, s.structured, None, 0, [], [], [], s.skipped)
      && s.structured == Some(if row.pending.Some? then row.pending.value else Drafts([], []))
      && |s.documents| == |row.sourceUrls|
      && (forall i | 0 <= i < |row.sourceUrls| :: s.documents[i] == Document(row.sourceUrls[i], ""))
      && s.analysis == (if row.result.Some? then Some(row.result.value.analysis) else None)
      && s.skipped == (if row.result.Some? then row.result.value.skipped else [])
  {
  }
}
