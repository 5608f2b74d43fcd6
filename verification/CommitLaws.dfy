/** What commit and enrich keep, whatever fails and wherever. */
module CommitLaws {
  import opened Wrappers
  import opened KnowledgeGraph
  import opened GraphInvariants
  import opened GraphRuns
  import opened AgentStates
  import opened Faults
  import opened CommitNodes
  import Sources
  import opened Sequences

  // ---- The record against the writes ----

  function EntityWrites(ops: seq<Op>): seq<Uuid> {
    if ops == [] then []
    else EntityWrites(ops[..|ops| - 1]) + if ops[|ops| - 1].Create? then [ops[|ops| - 1].id] else []
  }

  function LinkWrites(ops: seq<Op>): seq<Uuid> {
    if ops == [] then []
    else LinkWrites(ops[..|ops| - 1]) + if ops[|ops| - 1].Link? then [ops[|ops| - 1].id] else []
  }

  lemma OneMoreWrite(ops: seq<Op>, op: Op)
    ensures EntityWrites(ops + [op]) == EntityWrites(ops) + if op.Create? then [op.id] else []
    ensures LinkWrites(ops + [op]) == LinkWrites(ops) + if op.Link? then [op.id] else []
  {
    assert (ops + [op])[..|ops|] == ops;
  }

  predicate MakesElement(op: Op) {
    op.Create? || op.Link?
  }

  /** The two id lists tell two logs apart exactly by the entities and edges made in between. */
  lemma {:induction false} SameIdsExactly(a: seq<Op>, b: seq<Op>)
    requires a <= b
    ensures EntityWrites(a) <= EntityWrites(b) && LinkWrites(a) <= LinkWrites(b)
    ensures EntityWrites(a) == EntityWrites(b) && LinkWrites(a) == LinkWrites(b)
      <==> forall op | op in b[|a|..] :: !MakesElement(op)
    decreases |b|
  {
    if a == b {
      assert b[|a|..] == [];
    } else {
      var front, last := b[..|b| - 1], b[|b| - 1];
      assert a <= front && b[|a|..] == front[|a|..] + [last];
      SameIdsExactly(a, front);
      assert last in b[|a|..];
    }
  }

  /** The row lists a prefix of what was written, and at most one write is missing: the one in flight. */
  predicate KeepsUp(entityIds: seq<Uuid>, relationshipIds: seq<Uuid>, ops: seq<Op>) {
    && entityIds <= EntityWrites(ops) && relationshipIds <= LinkWrites(ops)
    && |EntityWrites(ops)| + |LinkWrites(ops)| <= |entityIds| + |relationshipIds| + 1
  }

  ghost predicate Recorded(w: World) {
    KeepsUp(w.entityIds, w.relationshipIds, w.writes)
  }

  ghost predicate Exact(w: World) {
    w.entityIds == EntityWrites(w.writes) && w.relationshipIds == LinkWrites(w.writes)
  }

  // ---- The writes against the graph ----

  lemma {:induction false} ExecAppend(g: Graph, a: seq<Op>, b: seq<Op>)
    ensures Exec(g, a + b) == Exec(Exec(g, a), b)
    decreases a
  {
    if a == [] {
      assert a + b == b;
    } else {
      assert (a + b)[1..] == a[1..] + b;
      ExecAppend(Step(g, a[0]), a[1..], b);
    }
  }

  lemma {:induction false} PrivateAppend(g: Graph, u: UserId, a: seq<Op>, b: seq<Op>)
    requires AllPrivateBy(g, u, a) && AllPrivateBy(Exec(g, a), u, b)
    ensures AllPrivateBy(g, u, a + b)
    decreases a
  {
    if a == [] {
      assert a + b == b;
    } else {
      assert (a + b)[1..] == a[1..] + b;
      PrivateAppend(Step(g, a[0]), u, a[1..], b);
    }
  }

  /** From w on, the graph moved by the logged writes only, each a private act of the run's owner. */
  ghost predicate Extends(owner: UserId, w: World, w': World) {
    && w.writes <= w'.writes
    && w'.graph == Exec(w.graph, w'.writes[|w.writes|..])
    && AllPrivateBy(w.graph, owner, w'.writes[|w.writes|..])
  }

  lemma SameWritesExtend(owner: UserId, w: World, w': World)
    requires w'.graph == w.graph && w'.writes == w.writes
    ensures Extends(owner, w, w')
  {
    assert w'.writes[|w.writes|..] == [];
  }

  lemma WriteExtends(owner: UserId, w: World, op: Op, w': World)
    requires op.u == owner && ActsInPrivate(w.graph, op)
    requires w'.graph == Step(w.graph, op) && w'.writes == w.writes + [op]
    ensures Extends(owner, w, w')
  {
    assert w'.writes[|w.writes|..] == [op] && [op][1..] == [];
    assert Exec(w.graph, [op]) == Exec(Step(w.graph, op), []);
    assert AllPrivateBy(Step(w.graph, op), owner, []);
  }

  lemma ExtendsTransitive(owner: UserId, a: World, b: World, c: World)
    requires Extends(owner, a, b) && Extends(owner, b, c)
    ensures Extends(owner, a, c)
  {
    var first, second := b.writes[|a.writes|..], c.writes[|b.writes|..];
    assert c.writes[|a.writes|..] == first + second;
    ExecAppend(a.graph, first, second);
    PrivateAppend(a.graph, owner, first, second);
  }

  lemma ExtendsKeepsInv(owner: UserId, w: World, w': World)
    requires Inv(w.graph) && Extends(owner, w, w')
    ensures Inv(w'.graph)
  {
    RunKeepsInv(w.graph, w'.writes[|w.writes|..]);
  }

  // ---- Entities ----

  predicate CreatedFor(g: Graph, owner: UserId, draft: DraftEntity, id: Uuid) {
    id in g.entities && g.entities[id] == Entity(owner, Private, draft.name, draft.kind, draft.attributes)
  }

  lemma StoreEntityLaw(w: World, o: CommitOracle, owner: UserId, draft: DraftEntity)
    requires Exact(w)
    ensures
      var (w', signal) := StoreEntity(w, o, owner, draft);
      && Extends(owner, w, w') && Recorded(w')
      && w'.entityIds == w.entityIds && w'.relationshipIds == w.relationshipIds
      && (signal == Proceed ==>
            && EntityWrites(w'.writes) == w.entityIds + [o.id(w.calls)] && LinkWrites(w'.writes) == w.relationshipIds
            && CreatedFor(w'.graph, owner, draft, o.id(w.calls))
            && o.id(w.calls) !in w.graph.entities
            && forall i | i in w.graph.entities :: i in w'.graph.entities && w'.graph.entities[i] == w.graph.entities[i])
  {
    var (w', signal) := StoreEntity(w, o, owner, draft);
    var op := CreateOp(w, o, owner, draft);
    if o.id(w.calls) !in w.graph.entities && Applied(o.fault(w.calls)) {
      WriteExtends(owner, w, op, w');
      OneMoreWrite(w.writes, op);
    } else {
      SameWritesExtend(owner, w, w');
    }
  }

  /** Later best-effort calls leave the record, the entities and the edges alone. */
  ghost predicate Beside(owner: UserId, w: World, w': World) {
    && Extends(owner, w, w')
    && w'.entityIds == w.entityIds && w'.relationshipIds == w.relationshipIds
    && EntityWrites(w'.writes) == EntityWrites(w.writes) && LinkWrites(w'.writes) == LinkWrites(w.writes)
    && w'.graph.entities == w.graph.entities && w'.graph.edges == w.graph.edges
  }

  lemma TryAttachLaw(w: World, o: CommitOracle, owner: UserId, id: Uuid, urls: seq<Url>, skipped: seq<Note>)
    requires Inv(w.graph) && !IsPublic(w.graph, id)
    ensures Beside(owner, w, TryAttach(w, o, owner, id, urls, skipped).0)
    ensures TryAttach(w, o, owner, id, urls, skipped).2 != Raised
  {
    var w' := TryAttach(w, o, owner, id, urls, skipped).0;
    if urls != [] && Applied(o.fault(w.calls)) {
      var op := Attach(owner, id, urls);
      WriteExtends(owner, w, op, w');
      OneMoreWrite(w.writes, op);
      Sources.AttachSourcesFacts(w.graph, owner, id, urls);
    } else {
      SameWritesExtend(owner, w, w');
    }
  }

  lemma TryEmbedLaw(w: World, o: CommitOracle, owner: UserId, name: string, skipped: seq<Note>)
    ensures Beside(owner, w, TryEmbed(w, o, name, skipped).0)
    ensures TryEmbed(w, o, name, skipped).2 != Raised
  {
    SameWritesExtend(owner, w, TryEmbed(w, o, name, skipped).0);
  }

  /** Row, working list and log in step. */
  ghost predicate InStep(w: World, entities: seq<Uuid>, relationships: seq<Uuid>) {
    Exact(w) && entities == w.entityIds && relationships == w.relationshipIds
  }

  ghost predicate EntityDone(w: World, w': World, owner: UserId, draft: DraftEntity, k: EntityWork, k': EntityWork, id: Uuid) {
    if draft.existingId.Some? then
      w' == w && id == draft.existingId.value && k' == k.(idMap := k.idMap[draft.tempId := id])
    else
      && id !in w.graph.entities && CreatedFor(w'.graph, owner, draft, id)
      && k'.idMap == k.idMap[draft.tempId := id] && k'.committed == k.committed + [id]
      && k'.created == k.created + [DigestEntity(id, draft.name, draft.kind)]
  }

  ghost predicate EntitiesKept(w: World, w': World) {
    forall i | i in w.graph.entities :: i in w'.graph.entities && w'.graph.entities[i] == w.graph.entities[i]
  }

  lemma BesideStaysInStep(owner: UserId, w: World, mid: World, w': World, entities: seq<Uuid>, relationships: seq<Uuid>)
    requires Extends(owner, w, mid) && Beside(owner, mid, w') && InStep(mid, entities, relationships)
    ensures Extends(owner, w, w') && InStep(w', entities, relationships) && Recorded(w')
  {
    ExtendsTransitive(owner, w, mid, w');
  }

  /** The two calls that matter: the create, and its record on the row. */
  lemma StoreThenRecord(w: World, o: CommitOracle, owner: UserId, draft: DraftEntity)
    requires Inv(w.graph) && Exact(w) && StoreEntity(w, o, owner, draft).1 == Proceed
    ensures
      var id := o.id(w.calls);
      var (w', signal) := RecordEntity(StoreEntity(w, o, owner, draft).0, o, id);
      && Extends(owner, w, w') && Recorded(w') && Inv(w'.graph)
      && id !in w.graph.entities && CreatedFor(w'.graph, owner, draft, id) && EntitiesKept(w, w')
      && (signal == Proceed ==> InStep(w', w.entityIds + [id], w.relationshipIds))
  {
    var stored := StoreEntity(w, o, owner, draft).0;
    var recorded := RecordEntity(stored, o, o.id(w.calls)).0;
    StoreEntityLaw(w, o, owner, draft);
    SameWritesExtend(owner, stored, recorded);
    ExtendsTransitive(owner, w, stored, recorded);
    ExtendsKeepsInv(owner, w, recorded);
  }

  /** One draft: linked to what it names, or created private for the owner and recorded. */
  lemma CommitEntityLaw(w: World, o: CommitOracle, owner: UserId, urls: seq<Url>, draft: DraftEntity, k: EntityWork)
    returns (id: Uuid)
    requires Inv(w.graph) && InStep(w, k.committed, w.relationshipIds)
    ensures id == if draft.existingId.Some? then draft.existingId.value else o.id(w.calls)
    ensures
      var (w', k', signal) := CommitEntity(w, o, owner, urls, draft, k);
      && Extends(owner, w, w') && Recorded(w')
      && (signal == Proceed ==>
            && InStep(w', k'.committed, w.relationshipIds) && EntitiesKept(w, w')
            && EntityDone(w, w', owner, draft, k, k', id))
  {
    if draft.existingId.Some? {
      id := draft.existingId.value;
      SameWritesExtend(owner, w, w);
    } else {
      id := o.id(w.calls);
      var (stored, s1) := StoreEntity(w, o, owner, draft);
      if s1 != Proceed {
        StoreEntityLaw(w, o, owner, draft);
      } else {
        StoreThenRecord(w, o, owner, draft);
        var (recorded, s2) := RecordEntity(stored, o, id);
        if s2 == Proceed {
          BestEffort(recorded, o, owner, urls, draft, k.skipped, id);
          BesideStaysInStep(owner, w, recorded, CommitEntity(w, o, owner, urls, draft, k).0, k.committed + [id], w.relationshipIds);
        }
      }
    }
  }

  lemma BestEffort(w: World, o: CommitOracle, owner: UserId, urls: seq<Url>, draft: DraftEntity, skipped: seq<Note>, id: Uuid)
    requires Inv(w.graph) && !IsPublic(w.graph, id)
    ensures
      var (attached, notes, s3) := TryAttach(w, o, owner, id, urls, skipped);
      Beside(owner, w, if s3 != Proceed then attached else TryEmbed(attached, o, draft.name, notes).0)
  {
    var (attached, notes, s3) := TryAttach(w, o, owner, id, urls, skipped);
    TryAttachLaw(w, o, owner, id, urls, skipped);
    TryEmbedLaw(attached, o, owner, draft.name, notes);
    ExtendsTransitive(owner, w, attached, TryEmbed(attached, o, draft.name, notes).0);
  }

  /** The id every draft ended up with; drafts with the same temp_id overwrite one another in the map. */
  function MapAll(idMap: map<string, Uuid>, drafts: seq<DraftEntity>, ids: seq<Uuid>): map<string, Uuid>
    requires |ids| == |drafts|
    decreases drafts
  {
    if drafts == [] then idMap else MapAll(idMap[drafts[0].tempId := ids[0]], drafts[1..], ids[1..])
  }

  function NewIds(drafts: seq<DraftEntity>, ids: seq<Uuid>): seq<Uuid>
    requires |ids| == |drafts|
    decreases drafts
  {
    if drafts == [] then []
    else (if drafts[0].existingId == None then [ids[0]] else []) + NewIds(drafts[1..], ids[1..])
  }

  function FirstDigest(draft: DraftEntity, id: Uuid): seq<DigestEntity> {
    if draft.existingId == None then [DigestEntity(id, draft.name, draft.kind)] else []
  }

  function NewDigests(drafts: seq<DraftEntity>, ids: seq<Uuid>): seq<DigestEntity>
    requires |ids| == |drafts|
    decreases drafts
  {
    if drafts == [] then []
    else FirstDigest(drafts[0], ids[0]) + NewDigests(drafts[1..], ids[1..])
  }

  ghost predicate DraftDone(w: World, w': World, owner: UserId, draft: DraftEntity, id: Uuid) {
    if draft.existingId.Some? then id == draft.existingId.value
    else id !in w.graph.entities && CreatedFor(w'.graph, owner, draft, id)
  }

  ghost predicate AllDone(w: World, w': World, owner: UserId, drafts: seq<DraftEntity>, ids: seq<Uuid>)
    requires |ids| == |drafts|
  {
    forall i | 0 <= i < |drafts| :: DraftDone(w, w', owner, drafts[i], ids[i])
  }

  /** Wherever the drafts stop, the record is a prefix of the writes; if they all go through, it is exact. */
  lemma {:induction false} CommitEntitiesSafe(
    w: World, o: CommitOracle, owner: UserId, urls: seq<Url>, drafts: seq<DraftEntity>, k: EntityWork)
    requires Inv(w.graph) && InStep(w, k.committed, w.relationshipIds)
    ensures
      var (w', k', signal) := CommitEntities(w, o, owner, urls, drafts, k);
      && Extends(owner, w, w') && Recorded(w')
      && (signal == Proceed ==> InStep(w', k'.committed, w.relationshipIds))
    decreases drafts
  {
    if drafts == [] {
      SameWritesExtend(owner, w, w);
    } else {
      var (next, k1, s1) := CommitEntity(w, o, owner, urls, drafts[0], k);
      var id := CommitEntityLaw(w, o, owner, urls, drafts[0], k);
      if s1 == Proceed {
        ExtendsKeepsInv(owner, w, next);
        CommitEntitiesSafe(next, o, owner, urls, drafts[1..], k1);
        ExtendsTransitive(owner, w, next, CommitEntities(next, o, owner, urls, drafts[1..], k1).0);
      }
    }
  }

  lemma DraftDoneWider(a: World, b: World, c: World, d: World, owner: UserId, draft: DraftEntity, id: Uuid)
    requires EntitiesKept(a, b) && DraftDone(b, c, owner, draft, id) && EntitiesKept(c, d)
    ensures DraftDone(a, d, owner, draft, id)
  {
  }

  lemma DoneAdded(
    w: World, next: World, w': World, owner: UserId, drafts: seq<DraftEntity>, id: Uuid, rest: seq<Uuid>)
    requires drafts != [] && |rest| == |drafts| - 1
    requires DraftDone(w, next, owner, drafts[0], id) && EntitiesKept(w, next) && EntitiesKept(next, w')
    requires AllDone(next, w', owner, drafts[1..], rest)
    ensures AllDone(w, w', owner, drafts, [id] + rest)
  {
    var ids := [id] + rest;
    forall i | 0 <= i < |drafts| ensures DraftDone(w, w', owner, drafts[i], ids[i]) {
      if i == 0 {
        DraftDoneWider(w, w, next, w', owner, drafts[0], id);
      } else {
        assert DraftDone(next, w', owner, drafts[1..][i - 1], rest[i - 1]);
        DraftDoneWider(w, next, w', w', owner, drafts[i], rest[i - 1]);
      }
    }
  }

  lemma MapAdded(drafts: seq<DraftEntity>, k: EntityWork, k1: EntityWork, ids: seq<Uuid>)
    requires drafts != [] && |ids| == |drafts|
    requires k1.idMap == k.idMap[drafts[0].tempId := ids[0]]
    requires k1.committed == k.committed + if drafts[0].existingId == None then [ids[0]] else []
    requires k1.created == k.created + FirstDigest(drafts[0], ids[0])
    ensures MapAll(k.idMap, drafts, ids) == MapAll(k1.idMap, drafts[1..], ids[1..])
    ensures k.committed + NewIds(drafts, ids) == k1.committed + NewIds(drafts[1..], ids[1..])
    ensures k.created + NewDigests(drafts, ids) == k1.created + NewDigests(drafts[1..], ids[1..])
  {
    Associative(k.created, FirstDigest(drafts[0], ids[0]), NewDigests(drafts[1..], ids[1..]));
    Associative(k.committed, if drafts[0].existingId == None then [ids[0]] else [], NewIds(drafts[1..], ids[1..]));
  }

  /** When commit gets through its entities, every draft is linked to what it names or newly created. */
  lemma {:induction false} CommitEntitiesDone(
    w: World, o: CommitOracle, owner: UserId, urls: seq<Url>, drafts: seq<DraftEntity>, k: EntityWork)
    returns (ids: seq<Uuid>)
    requires Inv(w.graph) && InStep(w, k.committed, w.relationshipIds)
    requires CommitEntities(w, o, owner, urls, drafts, k).2 == Proceed
    ensures |ids| == |drafts|
    ensures
      var (w', k', _) := CommitEntities(w, o, owner, urls, drafts, k);
      && EntitiesKept(w, w') && AllDone(w, w', owner, drafts, ids)
      && k'.idMap == MapAll(k.idMap, drafts, ids)
      && k'.committed == k.committed + NewIds(drafts, ids) && k'.created == k.created + NewDigests(drafts, ids)
    decreases drafts
  {
    if drafts == [] {
      ids := [];
    } else {
      var (next, k1, s1) := CommitEntity(w, o, owner, urls, drafts[0], k);
      var id := CommitEntityLaw(w, o, owner, urls, drafts[0], k);
      ExtendsKeepsInv(owner, w, next);
      var rest := CommitEntitiesDone(next, o, owner, urls, drafts[1..], k1);
      DoneAdded(w, next, CommitEntities(next, o, owner, urls, drafts[1..], k1).0, owner, drafts, id, rest);
      ids := [id] + rest;
      assert ids[1..] == rest;
      MapAdded(drafts, k, k1, ids);
    }
  }

  // ---- Relationships ----

  datatype EdgeFate = Committed(id: Uuid) | Skipped(note: Note)

  function CommittedIds(fates: seq<EdgeFate>): seq<Uuid> {
    if fates == [] then []
    else (if fates[0].Committed? then [fates[0].id] else []) + CommittedIds(fates[1..])
  }

  function SkipNotes(fates: seq<EdgeFate>): seq<Note> {
    if fates == [] then []
    else (if fates[0].Skipped? then [fates[0].note] else []) + SkipNotes(fates[1..])
  }

  ghost predicate EdgeIn(g: Graph, e: Edge) {
    exists k | k in g.edges :: g.edges[k] == e
  }

  lemma StoreLinkLaw(w: World, o: CommitOracle, owner: UserId, src: Uuid, dst: Uuid, kind: string)
    requires Exact(w) && Inv(w.graph)
    ensures
      var (w', row, signal) := StoreLink(w, o, owner, src, dst, kind);
      && Extends(owner, w, w') && Recorded(w') && w'.graph.entities == w.graph.entities && EdgesKept(w, w')
      && w'.entityIds == w.entityIds && w'.relationshipIds == w.relationshipIds
      && EntityWrites(w'.writes) == w.entityIds
      && (signal == Proceed && row ==>
            && LinkWrites(w'.writes) == w.relationshipIds + [o.id(w.calls)]
            && EdgeIn(w'.graph, Edge(o.id(w.calls), owner, src, dst, kind, Private)))
      && (!row ==> w' == Count(w))
      && row == MayLink(w.graph, owner, src, dst, Private)
  {
    var (w', row, signal) := StoreLink(w, o, owner, src, dst, kind);
    if row && Applied(o.fault(w.calls)) {
      var op := LinkOp(w, o, owner, src, dst, kind);
      WriteExtends(owner, w, op, w');
      OneMoreWrite(w.writes, op);
      assert w'.graph.edges[w.graph.next] == Edge(o.id(w.calls), owner, src, dst, kind, Private);
    } else {
      SameWritesExtend(owner, w, w');
    }
  }

  ghost predicate EdgesKept(w: World, w': World) {
    forall k | k in w.graph.edges :: k in w'.graph.edges && w'.graph.edges[k] == w.graph.edges[k]
  }

  /** Both ends are there and public or the owner's, and one of them is the owner's. */
  ghost predicate OwnerSees(g: Graph, owner: UserId, src: Uuid, dst: Uuid) {
    && src in g.entities && dst in g.entities
    && (g.entities[src].owner == owner || g.entities[dst].owner == owner)
    && (g.entities[src].owner == owner || g.entities[src].visibility == Public)
    && (g.entities[dst].owner == owner || g.entities[dst].visibility == Public)
  }

  ghost predicate LinkDone(w: World, w': World, k: LinkWork, k': LinkWork, e: Edge, fate: EdgeFate) {
    match fate
    case Committed(id) => id == e.id && k' == k.(committed := k.committed + [id]) && EdgeIn(w'.graph, e)
    case Skipped(note) => k' == k.(skipped := k.skipped + [note]) && w'.graph == w.graph
  }

  lemma RecordLinkLaw(w: World, stored: World, o: CommitOracle, owner: UserId, id: Uuid)
    requires Extends(owner, w, stored) && stored.entityIds == w.entityIds && stored.relationshipIds == w.relationshipIds
    requires EntityWrites(stored.writes) == w.entityIds && LinkWrites(stored.writes) == w.relationshipIds + [id]
    ensures
      var (w', signal) := RecordLink(stored, o, id);
      && Extends(owner, w, w') && Recorded(w') && w'.graph == stored.graph
      && (signal == Proceed ==> InStep(w', w.entityIds, w.relationshipIds + [id]))
  {
    SameWritesExtend(owner, stored, RecordLink(stored, o, id).0);
    ExtendsTransitive(owner, w, stored, RecordLink(stored, o, id).0);
  }

  /** One edge: made, private and recorded, or refused with one note because the owner may not link there. */
  lemma MakeLinkLaw(
    w: World, o: CommitOracle, owner: UserId, src: Uuid, dst: Uuid, kind: string, k: LinkWork, refused: Note)
    returns (fate: EdgeFate)
    requires Inv(w.graph) && InStep(w, w.entityIds, k.committed)
    ensures
      var (w', k', signal) := MakeLink(w, o, owner, src, dst, kind, k, refused);
      && Extends(owner, w, w') && Recorded(w')
      && (signal == Proceed ==>
            && InStep(w', w.entityIds, k'.committed) && w'.graph.entities == w.graph.entities && EdgesKept(w, w')
            && LinkDone(w, w', k, k', Edge(o.id(w.calls), owner, src, dst, kind, Private), fate)
            && (fate.Committed? <==> OwnerSees(w.graph, owner, src, dst))
            && (fate.Skipped? ==> fate.note == refused))
  {
    var (stored, row, s1) := StoreLink(w, o, owner, src, dst, kind);
    StoreLinkLaw(w, o, owner, src, dst, kind);
    fate := if row then Committed(o.id(w.calls)) else Skipped(refused);
    if s1 == Proceed {
      if row {
        RecordLinkLaw(w, stored, o, owner, o.id(w.calls));
      } else {
        SameWritesExtend(owner, w, Ask(stored, o).0);
      }
    }
  }

  predicate Resolves(text: Text, idMap: map<string, Uuid>, edge: DraftRelationship) {
    ResolveRef(text, idMap, edge.fromRef).Some? && ResolveRef(text, idMap, edge.toRef).Some?
  }

  /** Each draft edge is in the graph exactly if its ends resolve and the owner may link them, or has its one note; and the note says why. */
  ghost predicate EdgeSettled(g: Graph, text: Text, owner: UserId, idMap: map<string, Uuid>, edge: DraftRelationship, fate: EdgeFate) {
    match fate
    case Committed(id) =>
      && Resolves(text, idMap, edge)
      && OwnerSees(g, owner, ResolveRef(text, idMap, edge.fromRef).value, ResolveRef(text, idMap, edge.toRef).value)
      && EdgeIn(g, Edge(id, owner, ResolveRef(text, idMap, edge.fromRef).value,
                        ResolveRef(text, idMap, edge.toRef).value, edge.kind, Private))
    case Skipped(note) =>
      if Resolves(text, idMap, edge) then
        && note == EdgeRefused(edge.fromRef, edge.toRef, NotLinkable)
        && !OwnerSees(g, owner, ResolveRef(text, idMap, edge.fromRef).value, ResolveRef(text, idMap, edge.toRef).value)
      else note == UnresolvedEndpoint(edge.fromRef, edge.toRef)
  }

  lemma CommitRelationshipLaw(
    w: World, o: CommitOracle, text: Text, owner: UserId, edge: DraftRelationship, idMap: map<string, Uuid>, k: LinkWork)
    returns (fate: EdgeFate)
    requires Inv(w.graph) && InStep(w, w.entityIds, k.committed)
    ensures
      var (w', k', signal) := CommitRelationship(w, o, text, owner, edge, idMap, k);
      && Extends(owner, w, w') && Recorded(w')
      && (signal == Proceed ==>
            && InStep(w', w.entityIds, k'.committed) && w'.graph.entities == w.graph.entities && EdgesKept(w, w')
            && k'.committed == k.committed + (if fate.Committed? then [fate.id] else [])
            && k'.skipped == k.skipped + (if fate.Skipped? then [fate.note] else [])
            && EdgeSettled(w'.graph, text, owner, idMap, edge, fate))
  {
    if Resolves(text, idMap, edge) {
      fate := MakeLinkLaw(w, o, owner, ResolveRef(text, idMap, edge.fromRef).value,
        ResolveRef(text, idMap, edge.toRef).value, edge.kind, k, EdgeRefused(edge.fromRef, edge.toRef, NotLinkable));
    } else {
      fate := Skipped(UnresolvedEndpoint(edge.fromRef, edge.toRef));
      SameWritesExtend(owner, w, w);
    }
  }

  lemma SettledStays(w: World, w': World, text: Text, owner: UserId, idMap: map<string, Uuid>, edge: DraftRelationship, fate: EdgeFate)
    requires w'.graph.entities == w.graph.entities && EdgesKept(w, w') && EdgeSettled(w.graph, text, owner, idMap, edge, fate)
    ensures EdgeSettled(w'.graph, text, owner, idMap, edge, fate)
  {
  }

  lemma {:induction false} CommitRelationshipsSafe(
    w: World, o: CommitOracle, text: Text, owner: UserId, edges: seq<DraftRelationship>, idMap: map<string, Uuid>, k: LinkWork)
    requires Inv(w.graph) && InStep(w, w.entityIds, k.committed)
    ensures
      var (w', k', signal) := CommitRelationships(w, o, text, owner, edges, idMap, k);
      && Extends(owner, w, w') && Recorded(w')
      && (signal == Proceed ==> InStep(w', w.entityIds, k'.committed) && w'.graph.entities == w.graph.entities && EdgesKept(w, w'))
    decreases edges
  {
    if edges == [] {
      SameWritesExtend(owner, w, w);
    } else {
      var (next, k1, s1) := CommitRelationship(w, o, text, owner, edges[0], idMap, k);
      var fate := CommitRelationshipLaw(w, o, text, owner, edges[0], idMap, k);
      if s1 == Proceed {
        ExtendsKeepsInv(owner, w, next);
        CommitRelationshipsSafe(next, o, text, owner, edges[1..], idMap, k1);
        ExtendsTransitive(owner, w, next, CommitRelationships(next, o, text, owner, edges[1..], idMap, k1).0);
      }
    }
  }

  ghost predicate AllSettled(g: Graph, text: Text, owner: UserId, idMap: map<string, Uuid>, edges: seq<DraftRelationship>, fates: seq<EdgeFate>)
    requires |fates| == |edges|
  {
    forall i | 0 <= i < |edges| :: EdgeSettled(g, text, owner, idMap, edges[i], fates[i])
  }

  lemma FateAdded(
    next: World, w': World, text: Text, owner: UserId, idMap: map<string, Uuid>, edges: seq<DraftRelationship>, fate: EdgeFate, rest: seq<EdgeFate>)
    requires edges != [] && |rest| == |edges| - 1
    requires w'.graph.entities == next.graph.entities && EdgesKept(next, w') && EdgeSettled(next.graph, text, owner, idMap, edges[0], fate)
    requires AllSettled(w'.graph, text, owner, idMap, edges[1..], rest)
    ensures AllSettled(w'.graph, text, owner, idMap, edges, [fate] + rest)
  {
    var fates := [fate] + rest;
    SettledStays(next, w', text, owner, idMap, edges[0], fate);
    forall i | 0 <= i < |edges| ensures EdgeSettled(w'.graph, text, owner, idMap, edges[i], fates[i]) {
      if i > 0 { assert edges[i] == edges[1..][i - 1] && fates[i] == rest[i - 1]; }
    }
  }

  lemma FatesCounted(k: LinkWork, k1: LinkWork, fate: EdgeFate, rest: seq<EdgeFate>)
    requires k1.committed == k.committed + if fate.Committed? then [fate.id] else []
    requires k1.skipped == k.skipped + if fate.Skipped? then [fate.note] else []
    ensures k.committed + CommittedIds([fate] + rest) == k1.committed + CommittedIds(rest)
    ensures k.skipped + SkipNotes([fate] + rest) == k1.skipped + SkipNotes(rest)
  {
    assert ([fate] + rest)[1..] == rest;
    Associative(k.committed, if fate.Committed? then [fate.id] else [], CommittedIds(rest));
    Associative(k.skipped, if fate.Skipped? then [fate.note] else [], SkipNotes(rest));
  }

  /** When commit gets through its edges, each one is in the graph or has left exactly its own note. */
  lemma {:induction false} CommitRelationshipsDone(
    w: World, o: CommitOracle, text: Text, owner: UserId, edges: seq<DraftRelationship>, idMap: map<string, Uuid>, k: LinkWork)
    returns (fates: seq<EdgeFate>)
    requires Inv(w.graph) && InStep(w, w.entityIds, k.committed)
    requires CommitRelationships(w, o, text, owner, edges, idMap, k).2 == Proceed
    ensures |fates| == |edges|
    ensures
      var (w', k', _) := CommitRelationships(w, o, text, owner, edges, idMap, k);
      && k'.committed == k.committed + CommittedIds(fates) && k'.skipped == k.skipped + SkipNotes(fates)
      && AllSettled(w'.graph, text, owner, idMap, edges, fates)
    decreases edges
  {
    if edges == [] {
      fates := [];
    } else {
      var (next, k1, s1) := CommitRelationship(w, o, text, owner, edges[0], idMap, k);
      var fate := CommitRelationshipLaw(w, o, text, owner, edges[0], idMap, k);
      ExtendsKeepsInv(owner, w, next);
      var rest := CommitRelationshipsDone(next, o, text, owner, edges[1..], idMap, k1);
      CommitRelationshipsSafe(next, o, text, owner, edges[1..], idMap, k1);
      FateAdded(next, CommitRelationships(next, o, text, owner, edges[1..], idMap, k1).0, text, owner, idMap, edges, fate, rest);
      FatesCounted(k, k1, fate, rest);
      fates := [fate] + rest;
    }
  }
}
