/**
  commit and enrich as the sequence of their single calls.  At every moment of it the row misses at
  most the one write in flight, and every write is a private act of the run's owner where it is made.
 */
module CommitTrace {
  import opened Wrappers
  import opened KnowledgeGraph
  import opened GraphInvariants
  import opened GraphRuns
  import opened AgentStates
  import opened Faults
  import opened CommitNodes
  import opened CommitLaws
  import opened EnrichLaws
  import opened AgentRuns

  /** A graph write, an append to one of the row's columns, or just the passing of a call. */
  datatype Entry = Called | Wrote(op: Op) | NotedEntity(id: Uuid) | NotedLink(id: Uuid)

  ghost function Happen(w: World, e: Entry): World {
    match e
    case Called => Count(w)
    case Wrote(op) => Write(w, op)
    case NotedEntity(id) => w.(entityIds := w.entityIds + [id])
    case NotedLink(id) => w.(relationshipIds := w.relationshipIds + [id])
  }

  ghost function Replay(w: World, es: seq<Entry>): World
    decreases es
  {
    if es == [] then w else Replay(Happen(w, es[0]), es[1..])
  }

  /** The writes that only ever add to the graph. */
  predicate Adds(op: Op) {
    op.Create? || op.Link? || op.Attach?
  }

  ghost predicate Allowed(owner: UserId, w: World, e: Entry) {
    e.Wrote? ==> e.op.u == owner && ActsInPrivate(w.graph, e.op) && Adds(e.op)
  }

  /** The record holds before the first entry, after the last, and at every moment between. */
  ghost predicate Steady(owner: UserId, w: World, es: seq<Entry>)
    decreases es
  {
    Recorded(w) && (es == [] || (Allowed(owner, w, es[0]) && Steady(owner, Happen(w, es[0]), es[1..])))
  }

  lemma {:induction false} ReplayAppend(w: World, a: seq<Entry>, b: seq<Entry>)
    ensures Replay(w, a + b) == Replay(Replay(w, a), b)
    decreases a
  {
    if a == [] {
      assert a + b == b;
    } else {
      assert (a + b)[1..] == a[1..] + b;
      ReplayAppend(Happen(w, a[0]), a[1..], b);
    }
  }

  lemma {:induction false} SteadyAppend(owner: UserId, w: World, a: seq<Entry>, b: seq<Entry>)
    requires Steady(owner, w, a) && Steady(owner, Replay(w, a), b)
    ensures Steady(owner, w, a + b)
    decreases a
  {
    if a == [] {
      assert a + b == b;
    } else {
      assert (a + b)[1..] == a[1..] + b;
      SteadyAppend(owner, Happen(w, a[0]), a[1..], b);
    }
  }

  /** One stretch after another. */
  lemma Joined(owner: UserId, w: World, a: seq<Entry>, b: seq<Entry>) returns (es: seq<Entry>)
    ensures es == a + b && Replay(w, es) == Replay(Replay(w, a), b)
    ensures Steady(owner, w, a) && Steady(owner, Replay(w, a), b) ==> Steady(owner, w, es)
  {
    es := a + b;
    ReplayAppend(w, a, b);
    if Steady(owner, w, a) && Steady(owner, Replay(w, a), b) { SteadyAppend(owner, w, a, b); }
  }

  /** What holds at any one moment of a steady trace. */
  lemma {:induction false} AnyMoment(owner: UserId, w: World, es: seq<Entry>, n: nat)
    requires Steady(owner, w, es) && n <= |es|
    ensures Recorded(Replay(w, es[..n]))
    decreases es
  {
    if n > 0 {
      assert es[..n][1..] == es[1..][..n - 1];
      AnyMoment(owner, Happen(w, es[0]), es[1..], n - 1);
    }
  }

  /** An effect, if it took place, and the end of its call. */
  lemma OneCall(owner: UserId, w: World, applied: bool, e: Entry) returns (es: seq<Entry>)
    ensures Replay(w, es) == Count(if applied then Happen(w, e) else w)
    ensures Recorded(w) && (applied ==> Allowed(owner, w, e) && Recorded(Happen(w, e))) ==> Steady(owner, w, es)
  {
    es := if applied then [e, Called] else [Called];
    assert [e, Called][1..] == [Called] && [Called][1..] == [];
    assert Replay(Happen(w, e), [Called]) == Replay(Happen(Happen(w, e), Called), []);
    assert Replay(w, [Called]) == Replay(Happen(w, Called), []);
    var end := Count(if applied then Happen(w, e) else w);
    assert Recorded(end) ==> Steady(owner, end, []);
    assert Recorded(end) ==> Steady(owner, if applied then Happen(w, e) else w, [Called]);
  }

  lemma WriteRecorded(w: World, op: Op)
    requires Exact(w)
    ensures Recorded(w) && Recorded(Happen(w, Wrote(op)))
  {
    OneMoreWrite(w.writes, op);
  }

  /** An element just made is the one write missing until its append, and then nothing is. */
  lemma AppendRecorded(w: World, e: Entry)
    requires e.NotedEntity? || e.NotedLink?
    requires EntityWrites(w.writes) == w.entityIds + if e.NotedEntity? then [e.id] else []
    requires LinkWrites(w.writes) == w.relationshipIds + if e.NotedLink? then [e.id] else []
    ensures Recorded(w) && Recorded(Happen(w, e))
  {
  }

  // ---- commit ----

  lemma TryAttachTrace(w: World, o: CommitOracle, owner: UserId, id: Uuid, urls: seq<Url>, skipped: seq<Note>)
    returns (es: seq<Entry>)
    ensures Replay(w, es) == TryAttach(w, o, owner, id, urls, skipped).0
    ensures Recorded(w) && !IsPublic(w.graph, id) ==> Steady(owner, w, es)
  {
    es := [];
    if urls != [] {
      var op := Attach(owner, id, urls);
      OneMoreWrite(w.writes, op);
      es := OneCall(owner, w, Applied(o.fault(w.calls)), Wrote(op));
    }
  }

  lemma TryEmbedTrace(w: World, o: CommitOracle, owner: UserId, name: string, skipped: seq<Note>) returns (es: seq<Entry>)
    ensures Replay(w, es) == TryEmbed(w, o, name, skipped).0
    ensures Recorded(w) ==> Steady(owner, w, es)
  {
    es := OneCall(owner, w, false, Called);
    if o.fault(w.calls) == Fine {
      var more := OneCall(owner, Count(w), false, Called);
      es := Joined(owner, w, es, more);
    }
  }

  lemma BestEffortTrace(w: World, o: CommitOracle, owner: UserId, urls: seq<Url>, draft: DraftEntity, skipped: seq<Note>, id: Uuid)
    returns (es: seq<Entry>)
    ensures
      var (attached, notes, signal) := TryAttach(w, o, owner, id, urls, skipped);
      Replay(w, es) == if signal != Proceed then attached else TryEmbed(attached, o, draft.name, notes).0
    ensures Inv(w.graph) && Recorded(w) && !IsPublic(w.graph, id) ==> Steady(owner, w, es)
  {
    var (attached, notes, signal) := TryAttach(w, o, owner, id, urls, skipped);
    es := TryAttachTrace(w, o, owner, id, urls, skipped);
    if signal == Proceed {
      var more := TryEmbedTrace(attached, o, owner, draft.name, notes);
      if Inv(w.graph) && !IsPublic(w.graph, id) { TryAttachLaw(w, o, owner, id, urls, skipped); }
      es := Joined(owner, w, es, more);
    }
  }

  /** The create and, if it returned, its append. */
  lemma StoredTrace(w: World, o: CommitOracle, owner: UserId, draft: DraftEntity) returns (es: seq<Entry>)
    ensures
      var (stored, signal) := StoreEntity(w, o, owner, draft);
      Replay(w, es) == if signal != Proceed then stored else RecordEntity(stored, o, o.id(w.calls)).0
    ensures Exact(w) ==> Steady(owner, w, es)
  {
    var id := o.id(w.calls);
    var op := CreateOp(w, o, owner, draft);
    var (stored, signal) := StoreEntity(w, o, owner, draft);
    if Exact(w) { WriteRecorded(w, op); }
    es := OneCall(owner, w, id !in w.graph.entities && Applied(o.fault(w.calls)), Wrote(op));
    if signal == Proceed {
      var more := OneCall(owner, stored, Applied(o.fault(stored.calls)), NotedEntity(id));
      if Exact(w) {
        StoreEntityLaw(w, o, owner, draft);
        AppendRecorded(stored, NotedEntity(id));
      }
      es := Joined(owner, w, es, more);
    }
  }

  lemma CommitEntityTrace(w: World, o: CommitOracle, owner: UserId, urls: seq<Url>, draft: DraftEntity, k: EntityWork)
    returns (es: seq<Entry>)
    ensures Replay(w, es) == CommitEntity(w, o, owner, urls, draft, k).0
    ensures Inv(w.graph) && Exact(w) ==> Steady(owner, w, es)
  {
    es := [];
    if draft.existingId == None {
      var id := o.id(w.calls);
      var (stored, s1) := StoreEntity(w, o, owner, draft);
      es := StoredTrace(w, o, owner, draft);
      if s1 == Proceed {
        var (recorded, s2) := RecordEntity(stored, o, id);
        if s2 == Proceed {
          var more := BestEffortTrace(recorded, o, owner, urls, draft, k.skipped, id);
          if Inv(w.graph) && Exact(w) { StoreThenRecord(w, o, owner, draft); }
          es := Joined(owner, w, es, more);
        }
      }
    }
  }

  lemma {:induction false} CommitEntitiesTrace(
    w: World, o: CommitOracle, owner: UserId, urls: seq<Url>, drafts: seq<DraftEntity>, k: EntityWork) returns (es: seq<Entry>)
    ensures Replay(w, es) == CommitEntities(w, o, owner, urls, drafts, k).0
    ensures Inv(w.graph) && InStep(w, k.committed, w.relationshipIds) ==> Steady(owner, w, es)
    decreases drafts
  {
    es := [];
    if drafts != [] {
      var (next, k', signal) := CommitEntity(w, o, owner, urls, drafts[0], k);
      es := CommitEntityTrace(w, o, owner, urls, drafts[0], k);
      if signal == Proceed {
        var more := CommitEntitiesTrace(next, o, owner, urls, drafts[1..], k');
        if Inv(w.graph) && InStep(w, k.committed, w.relationshipIds) {
          var id := CommitEntityLaw(w, o, owner, urls, drafts[0], k);
          ExtendsKeepsInv(owner, w, next);
        }
        es := Joined(owner, w, es, more);
      }
    }
  }

  /** The append of a link that was made, or the second read after a refusal. */
  lemma AfterLinkTrace(w: World, o: CommitOracle, owner: UserId, src: Uuid, dst: Uuid, kind: string) returns (es: seq<Entry>)
    requires StoreLink(w, o, owner, src, dst, kind).2 == Proceed
    ensures
      var (stored, row, _) := StoreLink(w, o, owner, src, dst, kind);
      Replay(stored, es) == if row then RecordLink(stored, o, o.id(w.calls)).0 else Ask(stored, o).0
    ensures Inv(w.graph) && Exact(w) ==> Steady(owner, StoreLink(w, o, owner, src, dst, kind).0, es)
  {
    var (stored, row, _) := StoreLink(w, o, owner, src, dst, kind);
    var e := NotedLink(o.id(w.calls));
    es := OneCall(owner, stored, row && Applied(o.fault(stored.calls)), e);
    if Inv(w.graph) && Exact(w) {
      StoreLinkLaw(w, o, owner, src, dst, kind);
      if row { AppendRecorded(stored, e); }
    }
  }

  lemma MakeLinkTrace(
    w: World, o: CommitOracle, owner: UserId, src: Uuid, dst: Uuid, kind: string, k: LinkWork, refused: Note)
    returns (es: seq<Entry>)
    ensures Replay(w, es) == MakeLink(w, o, owner, src, dst, kind, k, refused).0
    ensures Inv(w.graph) && Exact(w) ==> Steady(owner, w, es)
  {
    var op := LinkOp(w, o, owner, src, dst, kind);
    var (stored, row, signal) := StoreLink(w, o, owner, src, dst, kind);
    if Exact(w) { WriteRecorded(w, op); }
    es := OneCall(owner, w, row && Applied(o.fault(w.calls)), Wrote(op));
    if signal == Proceed {
      var more := AfterLinkTrace(w, o, owner, src, dst, kind);
      es := Joined(owner, w, es, more);
    }
  }

  lemma CommitRelationshipTrace(
    w: World, o: CommitOracle, text: Text, owner: UserId, edge: DraftRelationship, idMap: map<string, Uuid>, k: LinkWork)
    returns (es: seq<Entry>)
    ensures Replay(w, es) == CommitRelationship(w, o, text, owner, edge, idMap, k).0
    ensures Inv(w.graph) && Exact(w) ==> Steady(owner, w, es)
  {
    es := [];
    var src, dst := ResolveRef(text, idMap, edge.fromRef), ResolveRef(text, idMap, edge.toRef);
    if src.Some? && dst.Some? {
      es := MakeLinkTrace(w, o, owner, src.value, dst.value, edge.kind, k, EdgeRefused(edge.fromRef, edge.toRef, NotLinkable));
    }
  }

  lemma {:induction false} CommitRelationshipsTrace(
    w: World, o: CommitOracle, text: Text, owner: UserId, edges: seq<DraftRelationship>, idMap: map<string, Uuid>, k: LinkWork)
    returns (es: seq<Entry>)
    ensures Replay(w, es) == CommitRelationships(w, o, text, owner, edges, idMap, k).0
    ensures Inv(w.graph) && InStep(w, w.entityIds, k.committed) ==> Steady(owner, w, es)
    decreases edges
  {
    es := [];
    if edges != [] {
      var (next, k', signal) := CommitRelationship(w, o, text, owner, edges[0], idMap, k);
      es := CommitRelationshipTrace(w, o, text, owner, edges[0], idMap, k);
      if signal == Proceed {
        var more := CommitRelationshipsTrace(next, o, text, owner, edges[1..], idMap, k');
        if Inv(w.graph) && InStep(w, w.entityIds, k.committed) {
          var fate := CommitRelationshipLaw(w, o, text, owner, edges[0], idMap, k);
          ExtendsKeepsInv(owner, w, next);
        }
        es := Joined(owner, w, es, more);
      }
    }
  }

  lemma CommitNodeTrace(w: World, o: CommitOracle, text: Text, s: AgentState) returns (es: seq<Entry>)
    ensures Replay(w, es) == CommitNode(w, o, text, s).0
    ensures Inv(w.graph) && InStep(w, s.committedEntities, s.committedRelationships) ==> Steady(s.owner, w, es)
  {
    var d := DraftsOf(s);
    var start := EntityWork(map[], s.committedEntities, [], []);
    var (next, e, signal) := CommitEntities(w, o, s.owner, Urls(s.documents), d.entities, start);
    es := CommitEntitiesTrace(w, o, s.owner, Urls(s.documents), d.entities, start);
    if signal == Proceed {
      var more := CommitRelationshipsTrace(
        next, o, text, s.owner, d.relationships, e.idMap, LinkWork(s.committedRelationships, []));
      if Inv(w.graph) && InStep(w, s.committedEntities, s.committedRelationships) {
        CommitEntitiesSafe(w, o, s.owner, Urls(s.documents), d.entities, start);
        ExtendsKeepsInv(s.owner, w, next);
      }
      es := Joined(s.owner, w, es, more);
    }
  }

  // ---- enrich ----

  lemma Passing(owner: UserId, w: World, n: nat) returns (es: seq<Entry>)
    ensures Replay(w, es) == w.(calls := w.calls + n)
    ensures Recorded(w) ==> Steady(owner, w, es)
    decreases n
  {
    es := [];
    if n > 0 {
      var one := OneCall(owner, w, false, Called);
      var more := Passing(owner, Count(w), n - 1);
      es := Joined(owner, w, one, more);
    }
  }

  lemma {:induction false} EnrichLinksTrace(
    w: World, o: CommitOracle, text: Text, owner: UserId, entity: DigestEntity, links: seq<(string, string)>, k: LinkWork)
    returns (es: seq<Entry>)
    ensures Replay(w, es) == EnrichLinks(w, o, text, owner, entity, links, k).0
    ensures Inv(w.graph) && InStep(w, w.entityIds, k.committed) ==> Steady(owner, w, es)
    decreases links
  {
    es := [];
    if links != [] && text.parse(links[0].0).Some? {
      var target := text.parse(links[0].0).value;
      var refused := EnrichRefused(entity.name, links[0].0, NotLinkable);
      var (next, k', signal) := MakeLink(w, o, owner, entity.id, target, links[0].1, k, refused);
      es := MakeLinkTrace(w, o, owner, entity.id, target, links[0].1, k, refused);
      if signal == Proceed {
        var more := EnrichLinksTrace(next, o, text, owner, entity, links[1..], k');
        if Inv(w.graph) && InStep(w, w.entityIds, k.committed) {
          var fate := MakeLinkLaw(w, o, owner, entity.id, target, links[0].1, k, refused);
          ExtendsKeepsInv(owner, w, next);
        }
        es := Joined(owner, w, es, more);
      }
    }
  }

  lemma AsksOnly(w: World, o: CommitOracle, text: Text, own: set<Uuid>)
    ensures var asked := LinksFor(w, o, text, own).0; asked.calls >= w.calls && asked == w.(calls := asked.calls)
  {
  }

  /** One new entity's neighbours asked for and linked to. */
  lemma EnrichOneTrace(
    w: World, o: CommitOracle, text: Text, owner: UserId, own: set<Uuid>, entity: DigestEntity, k: LinkWork)
    returns (es: seq<Entry>)
    ensures
      var (asked, links, signal) := LinksFor(w, o, text, own);
      Replay(w, es) == if signal != Proceed then asked else EnrichLinks(asked, o, text, owner, entity, links, k).0
    ensures Inv(w.graph) && InStep(w, w.entityIds, k.committed) ==> Steady(owner, w, es)
  {
    var (asked, links, signal) := LinksFor(w, o, text, own);
    AsksOnly(w, o, text, own);
    es := Passing(owner, w, asked.calls - w.calls);
    if signal == Proceed {
      var more := EnrichLinksTrace(asked, o, text, owner, entity, links, k);
      es := Joined(owner, w, es, more);
    }
  }

  lemma {:induction false} EnrichAllTrace(
    w: World, o: CommitOracle, text: Text, owner: UserId, own: set<Uuid>, entities: seq<DigestEntity>, k: LinkWork)
    returns (es: seq<Entry>)
    ensures Replay(w, es) == EnrichAll(w, o, text, owner, own, entities, k).0
    ensures Inv(w.graph) && InStep(w, w.entityIds, k.committed) ==> Steady(owner, w, es)
    decreases entities
  {
    es := [];
    if entities != [] {
      es := EnrichOneTrace(w, o, text, owner, own, entities[0], k);
      var (asked, links, s1) := LinksFor(w, o, text, own);
      if s1 == Proceed {
        var (next, k', s2) := EnrichLinks(asked, o, text, owner, entities[0], links, k);
        if s2 == Proceed {
          var more := EnrichAllTrace(next, o, text, owner, own, entities[1..], k');
          if Inv(w.graph) && InStep(w, w.entityIds, k.committed) {
            AsksOnly(w, o, text, own);
            EnrichLinksSafe(asked, o, text, owner, entities[0], links, k);
            ExtendsKeepsInv(owner, asked, next);
          }
          es := Joined(owner, w, es, more);
        }
      }
    }
  }

  lemma EnrichNodeTrace(w: World, o: CommitOracle, text: Text, s: AgentState) returns (es: seq<Entry>)
    ensures Replay(w, es) == EnrichNode(w, o, text, s).0
    ensures Inv(w.graph) && InStep(w, s.committedEntities, s.committedRelationships) ==> Steady(s.owner, w, es)
  {
    es := [];
    if s.created != [] {
      var own := set id | id in s.committedEntities;
      es := EnrichAllTrace(w, o, text, s.owner, own, s.created, LinkWork(s.committedRelationships, s.skipped));
    }
  }

  /**
    The guarded body of commit_agent_run, call by call: it replays to the very same world, and from a
    fresh record on it is steady.
   */
  lemma CommitParkedTrace(s: AgentState, c: CommitOracle, text: Text, w: World) returns (es: seq<Entry>)
    ensures Replay(w, es) == CommitParked(s, c, text, w).1
    ensures Inv(w.graph) && InStep(w, s.committedEntities, s.committedRelationships) ==> Steady(s.owner, w, es)
  {
    var (next, u, signal) := CommitNode(w, c, text, s);
    es := CommitNodeTrace(w, c, text, s);
    if signal == Proceed {
      var more := EnrichNodeTrace(next, c, text, Overwrite(s, u));
      if Inv(w.graph) && InStep(w, s.committedEntities, s.committedRelationships) { CommitNodeSafe(w, c, text, s); }
      es := Joined(s.owner, w, es, more);
    }
  }
}
