/** The research nodes: what each one makes of the state and of the world's answer. */
module ResearchNodes {
  import opened Wrappers
  import opened KnowledgeGraph
  import opened AgentStates

  datatype Deps = Deps(
    searchRetries: nat,
    critiqueRetries: nat,
    maxSources: nat,
    lookupCap: nat,
    searchTool: bool,
    wikiTools: bool,
    text: Text)

  datatype Verdict = Fine | Revise(notes: string)

  datatype Article = Article(summary: string, related: seq<string>)

  const SUMMARY_LIMIT := 600
  const SUMMARY_KEY := "wikipedia_summary"

  /**
    Every answer the world may give to one node visit.  None is a failure the node itself deals
    with; one it lets through is a fault of the visit.
   */
  datatype Answer = Answer(
    plan: Plan,
    survey: (seq<DigestEntity>, seq<Note>),
    results: nat -> Option<seq<Url>>,
    safe: Url -> bool,
    broadened: Option<Plan>,
    page: nat -> Option<string>,
    reading: nat -> Option<string>,
    synthesis: string,
    drafts: Option<Drafts>,
    verdict: Verdict,
    article: nat -> Option<Article>)

  // ---- search ----

  datatype Search = Search(seen: set<Url>, hits: seq<Url>, skipped: seq<Note>)

  function Consider(s: Search, url: Url, safe: Url -> bool, limit: nat): Search {
    if url in s.seen || |s.hits| >= limit then s
    else if safe(url) then Search(s.seen + {url}, s.hits + [url], s.skipped)
    else Search(s.seen + {url}, s.hits, s.skipped + [UnsafeUrl(url)])
  }

  function ConsiderAll(s: Search, urls: seq<Url>, safe: Url -> bool, limit: nat): Search
    decreases urls
  {
    if urls == [] then s else ConsiderAll(Consider(s, urls[0], safe, limit), urls[1..], safe, limit)
  }

  function RunQueries(s: Search, queries: seq<string>, n: nat, a: Answer, limit: nat): Search
    requires n <= |queries|
    decreases |queries| - n
  {
    if n == |queries| then s
    else
      var next := match a.results(n)
        case None => s.(skipped := s.skipped + [QueryFailed(queries[n])])
        case Some(urls) => ConsiderAll(s, urls, a.safe, limit);
      RunQueries(next, queries, n + 1, a, limit)
  }

  function SearchUpdate(deps: Deps, s: AgentState, a: Answer): Update {
    if s.plan == None then NO_UPDATE.(hits := Some([]), skipped := Some(s.skipped))
    else if !deps.searchTool then
      NO_UPDATE.(hits := Some([]), searchAttempts := Some(deps.searchRetries),
                 skipped := Some(s.skipped + [SearchUnavailable]))
    else
      var r := RunQueries(Search({}, [], s.skipped), s.plan.value.queries, 0, a, deps.maxSources);
      NO_UPDATE.(hits := Some(r.hits), skipped := Some(r.skipped))
  }

  method SearchNode(deps: Deps, s: AgentState, a: Answer) returns (u: Update)
    ensures u == SearchUpdate(deps, s, a)
  {
    var skipped := s.skipped;
    if s.plan == None {
      return NO_UPDATE.(hits := Some([]), skipped := Some(skipped));
    }
    if !deps.searchTool {
      return NO_UPDATE.(hits := Some([]), searchAttempts := Some(deps.searchRetries),
                        skipped := Some(skipped + [SearchUnavailable]));
    }
    var queries := s.plan.value.queries;
    var seen: set<Url>, hits: seq<Url> := {}, [];
    var n := 0;
    while n < |queries|
      invariant 0 <= n <= |queries|
      invariant RunQueries(Search(seen, hits, skipped), queries, n, a, deps.maxSources)
        == RunQueries(Search({}, [], s.skipped), queries, 0, a, deps.maxSources)
    {
      var results := a.results(n);
      if results == None {
        skipped := skipped + [QueryFailed(queries[n])];
        n := n + 1;
        continue;
      }
      var urls := results.value;
      var i := 0;
      ghost var before := Search(seen, hits, skipped);
      while i < |urls|
        invariant 0 <= i <= |urls|
        invariant ConsiderAll(Search(seen, hits, skipped), urls[i..], a.safe, deps.maxSources)
          == ConsiderAll(before, urls, a.safe, deps.maxSources)
      {
        var url := urls[i];
        assert urls[i..][1..] == urls[i + 1..];
        if url !in seen && |hits| < deps.maxSources {
          seen := seen + {url};
          if a.safe(url) {
            hits := hits + [url];
          } else {
            skipped := skipped + [UnsafeUrl(url)];
          }
        }
        i := i + 1;
      }
      n := n + 1;
    }
    u := NO_UPDATE.(hits := Some(hits), skipped := Some(skipped));
  }

  // ---- what search returns: the first distinct safe urls, up to the cap ----

  function AllResults(queries: seq<string>, n: nat, a: Answer): seq<Url>
    requires n <= |queries|
  {
    if n == 0 then [] else AllResults(queries, n - 1, a) + Or(a.results(n - 1), [])
  }

  function FirstSafe(urls: seq<Url>, safe: Url -> bool): seq<Url> {
    if urls == [] then []
    else
      var front, last := FirstSafe(urls[..|urls| - 1], safe), urls[|urls| - 1];
      if safe(last) && last !in front then front + [last] else front
  }

  function Take<T>(s: seq<T>, n: nat): seq<T> {
    if |s| <= n then s else s[..n]
  }

  /** After the results `read`: the hits are the cap's worth of first safe urls, and below the cap all are seen. */
  ghost predicate Tracks(s: Search, read: seq<Url>, safe: Url -> bool, limit: nat) {
    && s.hits == Take(FirstSafe(read, safe), limit)
    && (|s.hits| < limit ==> s.seen == set url | url in read)
  }

  lemma {:induction false} SafeReadIsFirst(read: seq<Url>, safe: Url -> bool, url: Url)
    ensures url in FirstSafe(read, safe) <==> url in read && safe(url)
  {
    if read != [] {
      assert read == read[..|read| - 1] + [read[|read| - 1]];
      SafeReadIsFirst(read[..|read| - 1], safe, url);
    }
  }

  lemma ConsiderOne(s: Search, read: seq<Url>, url: Url, safe: Url -> bool, limit: nat)
    requires Tracks(s, read, safe, limit)
    ensures Tracks(Consider(s, url, safe, limit), read + [url], safe, limit)
  {
    SafeReadIsFirst(read, safe, url);
    FirstSafeNext(read, url, safe);
    assert (set x | x in read + [url]) == (set x | x in read) + {url};
  }

  lemma FirstSafeNext(read: seq<Url>, url: Url, safe: Url -> bool)
    ensures FirstSafe(read + [url], safe)
      == if safe(url) && url !in FirstSafe(read, safe) then FirstSafe(read, safe) + [url] else FirstSafe(read, safe)
  {
    assert (read + [url])[..|read|] == read;
  }

  lemma {:induction false} ConsiderTracks(s: Search, read: seq<Url>, urls: seq<Url>, safe: Url -> bool, limit: nat)
    requires Tracks(s, read, safe, limit)
    ensures Tracks(ConsiderAll(s, urls, safe, limit), read + urls, safe, limit)
    decreases urls
  {
    if urls == [] {
      assert read + urls == read;
    } else {
      ConsiderOne(s, read, urls[0], safe, limit);
      ConsiderTracks(Consider(s, urls[0], safe, limit), read + [urls[0]], urls[1..], safe, limit);
      assert read + [urls[0]] + urls[1..] == read + urls;
    }
  }

  lemma {:induction false} QueriesTrack(s: Search, queries: seq<string>, n: nat, a: Answer, limit: nat)
    requires n <= |queries| && Tracks(s, AllResults(queries, n, a), a.safe, limit)
    ensures Tracks(RunQueries(s, queries, n, a, limit), AllResults(queries, |queries|, a), a.safe, limit)
    decreases |queries| - n
  {
    if n < |queries| {
      var read := AllResults(queries, n, a);
      match a.results(n)
      case None => {
        assert AllResults(queries, n + 1, a) == read + [] == read;
        QueriesTrack(s.(skipped := s.skipped + [QueryFailed(queries[n])]), queries, n + 1, a, limit);
      }
      case Some(urls) => {
        ConsiderTracks(s, read, urls, a.safe, limit);
        assert AllResults(queries, n + 1, a) == read + urls;
        QueriesTrack(ConsiderAll(s, urls, a.safe, limit), queries, n + 1, a, limit);
      }
    }
  }

  lemma {:induction false} FirstSafeDistinct(read: seq<Url>, safe: Url -> bool)
    ensures forall i, j | 0 <= i < j < |FirstSafe(read, safe)| :: FirstSafe(read, safe)[i] != FirstSafe(read, safe)[j]
  {
    if read != [] { FirstSafeDistinct(read[..|read| - 1], safe); }
  }

  /** A search round's hits: distinct, guarded, at most the cap, and none left out below the cap. */
  lemma SearchHits(deps: Deps, s: AgentState, a: Answer)
    requires s.plan.Some? && deps.searchTool
    ensures
      var hits := SearchUpdate(deps, s, a).hits.value;
      var read := AllResults(s.plan.value.queries, |s.plan.value.queries|, a);
      && hits == Take(FirstSafe(read, a.safe), deps.maxSources)
      && (forall i, j | 0 <= i < j < |hits| :: hits[i] != hits[j])
      && (forall url | url in hits :: url in read && a.safe(url))
      && |hits| <= deps.maxSources
      && (|hits| < deps.maxSources ==> forall url | url in read && a.safe(url) :: url in hits)
  {
    var queries := s.plan.value.queries;
    var read := AllResults(queries, |queries|, a);
    QueriesTrack(Search({}, [], s.skipped), queries, 0, a, deps.maxSources);
    FirstSafeDistinct(read, a.safe);
    forall url ensures url in FirstSafe(read, a.safe) <==> url in read && a.safe(url) {
      SafeReadIsFirst(read, a.safe, url);
    }
  }

  // ---- the one-answer nodes ----

  function BroadenUpdate(s: AgentState, a: Answer): Update {
    var attempt := s.searchAttempts + 1;
    match a.broadened
    case None => NO_UPDATE.(searchAttempts := Some(attempt), skipped := Some(s.skipped + [CouldNotBroaden(attempt)]))
    case Some(revised) =>
      NO_UPDATE.(plan := Some(if s.plan == None then revised else s.plan.value.(queries := revised.queries)),
                 searchAttempts := Some(attempt), skipped := Some(s.skipped + [Broadened(attempt)]))
  }

  function Fetched(hits: seq<Url>, n: nat, a: Answer): (seq<Document>, seq<Note>)
    requires n <= |hits|
  {
    if n == 0 then ([], [])
    else
      var (docs, notes) := Fetched(hits, n - 1, a);
      match a.page(n - 1)
      case Some(text) => (docs + [Document(hits[n - 1], text)], notes)
      case None => (docs, notes + [FetchFailed(hits[n - 1])])
  }

  /** Every hit becomes a document or leaves its note, and nothing else does. */
  lemma {:induction false} FetchAccounts(hits: seq<Url>, n: nat, a: Answer)
    requires n <= |hits|
    ensures
      var (docs, notes) := Fetched(hits, n, a);
      && |docs| + |notes| == n
      && forall i | 0 <= i < n ::
           (match a.page(i) case Some(text) => Document(hits[i], text) in docs case None => FetchFailed(hits[i]) in notes)
  {
    if n > 0 { FetchAccounts(hits, n - 1, a); }
  }

  function FetchUpdate(s: AgentState, a: Answer): Update {
    var (docs, notes) := Fetched(s.hits, |s.hits|, a);
    NO_UPDATE.(documents := Some(docs), skipped := Some(s.skipped + notes))
  }

  /** The fan-out: one update a document, or none at all. */
  function AnalyzeUpdates(s: AgentState, a: Answer): seq<Update> {
    seq(|s.documents|, i requires 0 <= i < |s.documents| =>
      NO_UPDATE.(sourceNotes := Some(match a.reading(i) case Some(note) => [note] case None => [])))
  }

  function CritiqueUpdate(s: AgentState, a: Answer): Update {
    var attempts := s.critiqueAttempts + 1;
    if DraftsOf(s).entities == [] || a.verdict.Fine?
    then NO_UPDATE.(critique := Some(None), critiqueAttempts := Some(attempts))
    else NO_UPDATE.(critique := Some(Some(a.verdict.notes)), critiqueAttempts := Some(attempts),
                    skipped := Some(s.skipped + [Criticised(attempts, a.verdict.notes)]))
  }

  // ---- structure ----

  function Key(text: Text, name: string, kind: string): (string, string) {
    (text.lower(name), text.lower(kind))
  }

  /** Last one wins. */
  function ByKey(text: Text, entities: seq<DigestEntity>): map<(string, string), Uuid> {
    if entities == [] then map[]
    else
      var last := entities[|entities| - 1];
      ByKey(text, entities[..|entities| - 1])[Key(text, last.name, last.kind) := last.id]
  }

  function Dedupe(text: Text, d: Drafts, existing: Option<seq<DigestEntity>>): Drafts {
    if existing == None || existing.value == [] then d
    else
      var byKey := ByKey(text, existing.value);
      d.(entities := seq(|d.entities|, i requires 0 <= i < |d.entities| =>
           var e := d.entities[i];
           if e.existingId == None && Key(text, e.name, e.kind) in byKey
           then e.(existingId := Some(byKey[Key(text, e.name, e.kind)])) else e))
  }

  /** The last surveyed entity under a key, if there is one. */
  ghost predicate LastUnder(text: Text, entities: seq<DigestEntity>, key: (string, string), found: Option<Uuid>) {
    match found
    case None => forall e | e in entities :: Key(text, e.name, e.kind) != key
    case Some(id) =>
      exists i | 0 <= i < |entities| :: entities[i].id == id && Key(text, entities[i].name, entities[i].kind) == key
        && forall j | i < j < |entities| :: Key(text, entities[j].name, entities[j].kind) != key
  }

  function FindKey(m: map<(string, string), Uuid>, key: (string, string)): Option<Uuid> {
    if key in m then Some(m[key]) else None
  }

  lemma {:induction false} ByKeyIsLast(text: Text, entities: seq<DigestEntity>, key: (string, string))
    ensures LastUnder(text, entities, key, FindKey(ByKey(text, entities), key))
  {
    if entities != [] {
      var n := |entities| - 1;
      assert entities == entities[..n] + [entities[n]];
      ByKeyIsLast(text, entities[..n], key);
      if Key(text, entities[n].name, entities[n].kind) == key {
        assert FindKey(ByKey(text, entities), key) == Some(entities[n].id);
      }
    }
  }

  /** Deduplication links exactly the unlinked drafts that the survey has under the same name and kind, and changes nothing else. */
  lemma DedupeExact(text: Text, d: Drafts, surveyed: seq<DigestEntity>, i: nat)
    requires i < |d.entities|
    ensures
      var r := Dedupe(text, d, Some(surveyed));
      && r.relationships == d.relationships && |r.entities| == |d.entities|
      && r.entities[i] == d.entities[i].(existingId := r.entities[i].existingId)
      && (if d.entities[i].existingId.Some? then r.entities[i] == d.entities[i]
          else LastUnder(text, surveyed, Key(text, d.entities[i].name, d.entities[i].kind), r.entities[i].existingId))
  {
    ByKeyIsLast(text, surveyed, Key(text, d.entities[i].name, d.entities[i].kind));
  }

  function Known(text: Text, entities: seq<DraftEntity>): set<string> {
    (set e | e in entities :: e.tempId) + (set e | e in entities && e.existingId.Some? :: text.canonical(e.existingId.value))
  }

  predicate RefOk(text: Text, known: set<string>, ref: string) {
    ref in known || text.parse(ref).Some?
  }

  function Keep(text: Text, known: set<string>, edges: seq<DraftRelationship>): seq<DraftRelationship> {
    if edges == [] then []
    else
      var last := edges[|edges| - 1];
      Keep(text, known, edges[..|edges| - 1])
        + if RefOk(text, known, last.fromRef) && RefOk(text, known, last.toRef) then [last] else []
  }

  function Prune(text: Text, d: Drafts): Drafts {
    d.(relationships := Keep(text, Known(text, d.entities), d.relationships))
  }

  lemma {:induction false} KeepShorter(text: Text, known: set<string>, edges: seq<DraftRelationship>)
    ensures |Keep(text, known, edges)| <= |edges|
  {
    if edges != [] { KeepShorter(text, known, edges[..|edges| - 1]); }
  }

  function StructureUpdate(deps: Deps, s: AgentState, a: Answer): Update {
    match a.drafts
    case None => NO_UPDATE.(structured := Some(NO_DRAFTS), skipped := Some(s.skipped + [StructureFailed]))
    case Some(raw) =>
      var deduped := Dedupe(deps.text, raw, s.existing);
      var pruned := Prune(deps.text, deduped);
      var dropped := (KeepShorter(deps.text, Known(deps.text, deduped.entities), deduped.relationships);
                      |deduped.relationships| - |pruned.relationships|);
      NO_UPDATE.(structured := Some(pruned),
                 skipped := Some(s.skipped + if dropped > 0 then [DroppedEdges(dropped)] else []))
  }

  // ---- lookup ----

  /** Last one wins. */
  function ByName(text: Text, entities: seq<DraftEntity>): map<string, string> {
    if entities == [] then map[]
    else
      var last := entities[|entities| - 1];
      ByName(text, entities[..|entities| - 1])[text.lower(last.name) := last.tempId]
  }

  const RELATED := "related_to"

  function RelatedEdges(text: Text, byName: map<string, string>, from: string, related: seq<string>)
    : seq<DraftRelationship>
  {
    if related == [] then []
    else
      var name := text.lower(related[|related| - 1]);
      RelatedEdges(text, byName, from, related[..|related| - 1])
        + if name in byName && byName[name] != from then [DraftRelationship(from, byName[name], RELATED)] else []
  }

  datatype Lookup = Lookup(entities: seq<DraftEntity>, extra: seq<DraftRelationship>, skipped: seq<Note>)

  function Summarised(draft: DraftEntity, summary: string): DraftEntity {
    if summary == "" then draft
    else draft.(attributes := draft.attributes[SUMMARY_KEY := Take(summary, SUMMARY_LIMIT)])
  }

  function LookUpOne(text: Text, byName: map<string, string>, l: Lookup, draft: DraftEntity, article: Option<Article>)
    : Lookup
  {
    match article
    case None => Lookup(l.entities + [draft], l.extra, l.skipped + [LookupFailed(draft.name)])
    case Some(found) =>
      Lookup(l.entities + [Summarised(draft, found.summary)],
             l.extra + RelatedEdges(text, byName, draft.tempId, found.related), l.skipped)
  }

  function LookUp(text: Text, byName: map<string, string>, l: Lookup, drafts: seq<DraftEntity>, n: nat, a: Answer): Lookup
    requires n <= |drafts|
    decreases |drafts| - n
  {
    if n == |drafts| then l
    else LookUp(text, byName, LookUpOne(text, byName, l, drafts[n], a.article(n)), drafts, n + 1, a)
  }

  function NotSeen(edges: seq<DraftRelationship>, seen: seq<DraftRelationship>): seq<DraftRelationship> {
    if edges == [] then []
    else NotSeen(edges[..|edges| - 1], seen) + if edges[|edges| - 1] in seen then [] else [edges[|edges| - 1]]
  }

  function LookupUpdate(deps: Deps, s: AgentState, a: Answer): Update {
    var d := DraftsOf(s);
    if d.entities == [] then NO_UPDATE
    else if !deps.wikiTools then NO_UPDATE.(skipped := Some(s.skipped + [LookupUnavailable]))
    else
      var toEnrich := Take(d.entities, deps.lookupCap);
      var rest := d.entities[|toEnrich|..];
      var notes := if rest == [] then s.skipped else s.skipped + [LookupCapped(|toEnrich|, |d.entities|)];
      var l := LookUp(deps.text, ByName(deps.text, d.entities), Lookup([], [], notes), toEnrich, 0, a);
      NO_UPDATE.(
        structured := Some(Drafts(l.entities + rest, d.relationships + NotSeen(l.extra, d.relationships))),
        skipped := Some(l.skipped))
  }

  method LookupNode(deps: Deps, s: AgentState, a: Answer) returns (u: Update)
    ensures u == LookupUpdate(deps, s, a)
  {
    var d := DraftsOf(s);
    if d.entities == [] {
      return NO_UPDATE;
    }
    if !deps.wikiTools {
      return NO_UPDATE.(skipped := Some(s.skipped + [LookupUnavailable]));
    }
    var byName := ByName(deps.text, d.entities);
    var toEnrich := Take(d.entities, deps.lookupCap);
    var rest := d.entities[|toEnrich|..];
    var skipped := s.skipped;
    if rest != [] {
      skipped := skipped + [LookupCapped(|toEnrich|, |d.entities|)];
    }
    ghost var start := Lookup([], [], skipped);
    var entities: seq<DraftEntity>, extra: seq<DraftRelationship> := [], [];
    var n := 0;
    while n < |toEnrich|
      invariant 0 <= n <= |toEnrich|
      invariant LookUp(deps.text, byName, Lookup(entities, extra, skipped), toEnrich, n, a)
        == LookUp(deps.text, byName, start, toEnrich, 0, a)
    {
      var draft := toEnrich[n];
      match a.article(n) {
        case None =>
          skipped := skipped + [LookupFailed(draft.name)];
          entities := entities + [draft];
        case Some(found) =>
          entities := entities + [Summarised(draft, found.summary)];
          extra := extra + RelatedEdges(deps.text, byName, draft.tempId, found.related);
      }
      n := n + 1;
    }
    entities := entities + rest;
    u := NO_UPDATE.(
      structured := Some(Drafts(entities, d.relationships + NotSeen(extra, d.relationships))),
      skipped := Some(skipped));
  }
}
