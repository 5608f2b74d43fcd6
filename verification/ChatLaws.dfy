/** What a chat turn's tool loop leaves: a well-formed history, and runs, jobs and launch parts in step. */
module ChatLaws {
  import opened Wrappers
  import opened Sequences
  import opened Faults
  import opened ChatTools

  // ---- One call ----

  /** A call of one of the two tools with arguments that can be read. */
  predicate Calls(call: ToolCall, tool: ToolName) {
    call.ToolCall? && call.tool == tool && call.args.Some?
  }

  /** A launch that gets as far as the runs table: a topic of 3 to 500 characters. */
  predicate Inserts(call: ToolCall) {
    Calls(call, Launch) && 3 <= |call.args.value.topic| <= 500
  }

  /** What ends the turn at a call: unreadable, a search interrupted, a topic too long, or a store that raises. */
  predicate Raises(o: Oracle, call: ToolCall, i: nat, j: nat) {
    || call.NoFunction?
    || (!call.tool.Other? && call.args == None)
    || (Calls(call, Search) && |call.args.value.query| >= 3 && o.search(i, j) == Interrupted)
    || (Calls(call, Launch) && |call.args.value.topic| > 500)
    || (Inserts(call) && (o.insert(i, j) != Fine || o.enqueue(i, j) != Fine))
  }

  /** The result a call must get, given what the search returned; a launch's also names its run. */
  predicate Fits(note: Note, call: ToolCall, found: Searched) {
    && call.ToolCall?
    && match call.tool
       case Other(_) => note == Unrecognised(call.tool)
       case Search =>
         && call.args.Some?
         && var query := call.args.value.query;
         if |query| < 3 then note == UnusableQuery
         else
           (match found
            case Found(text) => note == SearchFound(query, text)
            case Failed => note == SearchFailed(query)
            case Interrupted => false)
       case Launch =>
         && call.args.Some?
         && var topic := call.args.value.topic;
         if |topic| < 3 then note == UnusableTopic else note.QueuedAs? && note.topic == topic
  }

  /** The same without the world: what a reader of the history alone can check. */
  ghost predicate Answers(note: Note, call: ToolCall) {
    exists found :: Fits(note, call, found)
  }

  /** What a raising call leaves behind though no part reports it: a run in the table, its job on the queue. */
  datatype Left = Left(table: seq<RunId>, queue: seq<RunId>)

  const NOTHING := Left([], [])

  predicate LeftBy(left: Left, o: Oracle, call: ToolCall, i: nat, j: nat) {
    var inserted := Inserts(call) && Applied(o.insert(i, j));
    && |left.table| == (if inserted then 1 else 0)
    && left.queue == if inserted && o.insert(i, j) == Fine && Applied(o.enqueue(i, j)) then left.table else []
  }

  function PartRun(part: Option<Part>): seq<RunId> {
    if part.Some? && part.value.LaunchPart? then [part.value.run] else []
  }

  /** The part the reader sees for a result. */
  function PartOf(note: Note): Option<Part> {
    match note
    case SearchFound(query, text) => Some(SearchPart(query, text))
    case QueuedAs(topic, run) => Some(LaunchPart(topic, run))
    case _ => None
  }

  /** Which error a raising call ends the turn with. */
  function ErrorOf(o: Oracle, call: ToolCall, i: nat, j: nat): Error {
    if call.NoFunction? || call.args == None then MalformedCall
    else if call.tool == Search then SearchInterrupted
    else if |call.args.value.topic| > 500 then InvalidTopic
    else if o.insert(i, j) != Fine then InsertFailed
    else EnqueueFailed
  }

  /** A call raises or is answered; only a launch touches the stores, and one that went through is in both, once. */
  lemma CalledLaw(s: State, call: ToolCall, o: Oracle, i: nat, j: nat) returns (left: Left)
    ensures
      var (next, r) := Called(s, call, o, i, j);
      && next.history == s.history && next.parts == s.parts
      && (r.Err? <==> Raises(o, call, i, j))
      && (r.Err? ==>
            && r.error == ErrorOf(o, call, i, j) && LeftBy(left, o, call, i, j)
            && next.inserted == s.inserted + left.table && next.enqueued == s.enqueued + left.queue)
      && (r.Ok? ==>
            && Fits(r.value.note, call, o.search(i, j)) && r.value.part == PartOf(r.value.note)
            && |PartRun(r.value.part)| == (if Launches(call) then 1 else 0)
            && next.inserted == s.inserted + PartRun(r.value.part)
            && next.enqueued == s.enqueued + PartRun(r.value.part))
  {
    var (next, r) := Called(s, call, o, i, j);
    left := Left(next.inserted[|s.inserted|..], next.enqueued[|s.enqueued|..]);
  }

  // ---- Well-formed history ----

  /** One round: the model's turn and a result for each of its calls. */
  datatype Block = Block(content: string, calls: seq<ToolCall>, notes: seq<Note>)

  function Results(notes: seq<Note>): seq<Message> {
    if notes == [] then [] else [Tool(notes[0])] + Results(notes[1..])
  }

  function Messages(b: Block): seq<Message> {
    [Assistant(b.content, b.calls)] + Results(b.notes)
  }

  function Flatten(blocks: seq<Block>): seq<Message> {
    if blocks == [] then [] else Messages(blocks[0]) + Flatten(blocks[1..])
  }

  predicate Launching(b: Block) {
    exists j | 0 <= j < |b.calls| :: Launches(b.calls[j])
  }

  /** The notes answer the calls from the j-th on one by one, and none of those calls raised. */
  predicate Answering(notes: seq<Note>, calls: seq<ToolCall>, o: Oracle, i: nat, j: nat) {
    && j + |notes| <= |calls|
    && forall k | 0 <= k < |notes| :: Fits(notes[k], calls[j + k], o.search(i, j + k)) && !Raises(o, calls[j + k], i, j + k)
  }

  /** At least one call, as the model replied in round i, and every call answered. */
  ghost predicate Round(b: Block, i: nat, o: Oracle) {
    && o.reply(i) == Some(Reply(b.content, b.calls)) && b.calls != []
    && Answering(b.notes, b.calls, o, i, 0) && |b.notes| == |b.calls|
  }

  /** A round that ends at a call that raises. */
  ghost predicate CutShort(b: Block, i: nat, o: Oracle) {
    && o.reply(i) == Some(Reply(b.content, b.calls))
    && Answering(b.notes, b.calls, o, i, 0) && |b.notes| < |b.calls| && Raises(o, b.calls[|b.notes|], i, |b.notes|)
  }

  /** Rounds i, i + 1, ...: whole, and without a launch. */
  ghost predicate Quiet(blocks: seq<Block>, i: nat, o: Oracle) {
    forall k | 0 <= k < |blocks| :: Round(blocks[k], i + k, o) && !Launching(blocks[k])
  }

  /**
    Quiet rounds and one last block that may launch or be cut short; and why it ended there: the rounds
    are used up, the model called nothing, it could not be reached, it launched, or a call raised.
   */
  ghost predicate Ended(blocks: seq<Block>, i: nat, o: Oracle, maxRounds: nat, error: Option<Error>) {
    if error == Some(ModelUnreachable) then Quiet(blocks, i, o) && o.reply(i + |blocks|) == None
    else if blocks != [] && !Quiet(blocks, i, o) then
      var n := |blocks| - 1;
      && Quiet(blocks[..n], i, o)
      && if error.Some? then CutShort(blocks[n], i + n, o) else Round(blocks[n], i + n, o) && Launching(blocks[n])
    else
      && error == None && Quiet(blocks, i, o)
      && (i + |blocks| == maxRounds
          || (o.reply(i + |blocks|).Some? && o.reply(i + |blocks|).value.calls == []))
  }

  function LaunchedRuns(parts: seq<Part>): seq<RunId> {
    if parts == [] then [] else PartRun(Some(parts[0])) + LaunchedRuns(parts[1..])
  }

  /** How many of the n calls from the j-th on launch. */
  function LaunchCount(calls: seq<ToolCall>, j: nat, n: nat): nat
    requires j + n <= |calls|
    decreases n
  {
    if n == 0 then 0 else (if Launches(calls[j]) then 1 else 0) + LaunchCount(calls, j + 1, n - 1)
  }

  lemma {:induction false} NoLaunchNoCount(calls: seq<ToolCall>, j: nat, n: nat)
    requires j + n <= |calls|
    ensures LaunchCount(calls, j, n) == 0 <==> forall k | j <= k < j + n :: !Launches(calls[k])
    decreases n
  {
    if n > 0 { NoLaunchNoCount(calls, j + 1, n - 1); }
  }

  // ---- From state to state ----

  /** The messages said and the parts collected on the way; both stores got the runs of the parts, and what was left. */
  predicate Grew(s: State, t: State, said: seq<Message>, more: seq<Part>, left: Left) {
    && t.history == s.history + said && t.parts == s.parts + more
    && t.inserted == s.inserted + LaunchedRuns(more) + left.table
    && t.enqueued == s.enqueued + LaunchedRuns(more) + left.queue
  }

  function AsSeq(part: Option<Part>): seq<Part> {
    if part.Some? then [part.value] else []
  }

  lemma {:induction false} RunsAppend(a: seq<Part>, b: seq<Part>)
    ensures LaunchedRuns(a + b) == LaunchedRuns(a) + LaunchedRuns(b)
  {
    if a == [] {
      assert a + b == b;
    } else {
      assert (a + b)[0] == a[0] && (a + b)[1..] == a[1..] + b;
      RunsAppend(a[1..], b);
      Associative(PartRun(Some(a[0])), LaunchedRuns(a[1..]), LaunchedRuns(b));
    }
  }

  lemma Store(s: seq<RunId>, m: seq<RunId>, t: seq<RunId>, a: seq<RunId>, b: seq<RunId>, left: seq<RunId>)
    requires m == s + a + [] && t == m + b + left
    ensures t == s + (a + b) + left
  {
    assert s + a + [] == s + a;
    Associative(s, a, b);
  }

  lemma GrewOn(
    s: State, m: State, t: State, said: seq<Message>, later: seq<Message>, more: seq<Part>, rest: seq<Part>, left: Left)
    requires Grew(s, m, said, more, NOTHING) && Grew(m, t, later, rest, left)
    ensures Grew(s, t, said + later, more + rest, left)
  {
    Associative(s.history, said, later);
    Associative(s.parts, more, rest);
    RunsAppend(more, rest);
    Store(s.inserted, m.inserted, t.inserted, LaunchedRuns(more), LaunchedRuns(rest), left.table);
    Store(s.enqueued, m.enqueued, t.enqueued, LaunchedRuns(more), LaunchedRuns(rest), left.queue);
  }

  lemma GrewNothing(s: State)
    ensures Grew(s, s, [], [], NOTHING)
  {
    assert s.history + [] == s.history && s.parts + [] == s.parts;
    assert s.inserted + [] == s.inserted && s.enqueued + [] == s.enqueued;
  }

  lemma AnsweredLaw(s: State, call: ToolCall, o: Oracle, i: nat, j: nat)
    requires Called(s, call, o, i, j).1.Ok?
    ensures
      var (next, r) := Called(s, call, o, i, j);
      && Grew(s, Answered(next, r.value), [Tool(r.value.note)], AsSeq(r.value.part), NOTHING)
      && LaunchedRuns(AsSeq(r.value.part)) == PartRun(r.value.part)
  {
    var (next, r) := Called(s, call, o, i, j);
    var left := CalledLaw(s, call, o, i, j);
    var part := AsSeq(r.value.part);
    assert LaunchedRuns(part) == PartRun(r.value.part) by {
      if r.value.part.Some? { assert part[1..] == [] && PartRun(r.value.part) + [] == PartRun(r.value.part); }
    }
    assert s.parts + [] == s.parts;
    assert s.inserted + PartRun(r.value.part) + [] == s.inserted + PartRun(r.value.part);
    assert s.enqueued + PartRun(r.value.part) + [] == s.enqueued + PartRun(r.value.part);
  }

  /** What a reply's calls leave, cut short or not. */
  ghost predicate CallsDone(
    calls: seq<ToolCall>, o: Oracle, i: nat, j: nat, notes: seq<Note>, more: seq<Part>, left: Left, error: Option<Error>)
  {
    && Answering(notes, calls, o, i, j) && |LaunchedRuns(more)| == LaunchCount(calls, j, |notes|)
    && if error == None then j + |notes| == |calls| && left == NOTHING
       else
         && error.value != ModelUnreachable && j + |notes| < |calls| && Raises(o, calls[j + |notes|], i, j + |notes|)
         && LeftBy(left, o, calls[j + |notes|], i, j + |notes|)
  }

  lemma CallsDoneOn(
    calls: seq<ToolCall>, o: Oracle, i: nat, j: nat, note: Note, part: seq<Part>, notes: seq<Note>, more: seq<Part>, left: Left,
    error: Option<Error>)
    requires j < |calls| && Fits(note, calls[j], o.search(i, j)) && !Raises(o, calls[j], i, j)
    requires |LaunchedRuns(part)| == if Launches(calls[j]) then 1 else 0
    requires CallsDone(calls, o, i, j + 1, notes, more, left, error)
    ensures CallsDone(calls, o, i, j, [note] + notes, part + more, left, error)
    ensures Results([note] + notes) == [Tool(note)] + Results(notes)
  {
    assert ([note] + notes)[1..] == notes;
    RunsAppend(part, more);
    AnsweringOn(calls, o, i, j, note, notes);
    assert j + |[note] + notes| == j + 1 + |notes|;
  }

  lemma AnsweringOn(calls: seq<ToolCall>, o: Oracle, i: nat, j: nat, note: Note, notes: seq<Note>)
    requires j < |calls| && Fits(note, calls[j], o.search(i, j)) && !Raises(o, calls[j], i, j)
    requires Answering(notes, calls, o, i, j + 1)
    ensures Answering([note] + notes, calls, o, i, j)
  {
    var all := [note] + notes;
    forall k | 0 <= k < |all| ensures Fits(all[k], calls[j + k], o.search(i, j + k)) && !Raises(o, calls[j + k], i, j + k) {
      if k > 0 { assert all[k] == notes[k - 1] && calls[j + k] == calls[j + 1 + (k - 1)]; }
    }
  }

  /** One call answered, and what the later ones left. */
  lemma CallThenRest(
    s: State, mid: State, t: State, calls: seq<ToolCall>, o: Oracle, i: nat, j: nat, a: Answer, notes: seq<Note>,
    more: seq<Part>, left: Left, error: Option<Error>)
    returns (allNotes: seq<Note>, all: seq<Part>)
    requires j < |calls| && Called(s, calls[j], o, i, j).1 == Ok(a) && mid == Answered(Called(s, calls[j], o, i, j).0, a)
    requires Grew(mid, t, Results(notes), more, left) && CallsDone(calls, o, i, j + 1, notes, more, left, error)
    ensures Grew(s, t, Results(allNotes), all, left) && CallsDone(calls, o, i, j, allNotes, all, left, error)
  {
    var lost := CalledLaw(s, calls[j], o, i, j);
    AnsweredLaw(s, calls[j], o, i, j);
    GrewOn(s, mid, t, [Tool(a.note)], Results(notes), AsSeq(a.part), more, left);
    CallsDoneOn(calls, o, i, j, a.note, AsSeq(a.part), notes, more, left, error);
    allNotes, all := [a.note] + notes, AsSeq(a.part) + more;
  }

  lemma RaisedLaw(s: State, calls: seq<ToolCall>, o: Oracle, i: nat, j: nat) returns (left: Left)
    requires j < |calls| && Called(s, calls[j], o, i, j).1.Err?
    ensures Grew(s, Called(s, calls[j], o, i, j).0, Results([]), [], left)
    ensures CallsDone(calls, o, i, j, [], [], left, Some(Called(s, calls[j], o, i, j).1.error))
  {
    GrewNothing(s);
    left := CalledLaw(s, calls[j], o, i, j);
    assert s.inserted + [] == s.inserted && s.enqueued + [] == s.enqueued;
  }

  lemma {:induction false} CalledFromLaw(s: State, calls: seq<ToolCall>, o: Oracle, i: nat, j: nat, launched: bool)
    returns (notes: seq<Note>, more: seq<Part>, left: Left)
    requires j <= |calls|
    ensures
      var (t, _, error) := CalledFrom(s, calls, o, i, j, launched);
      Grew(s, t, Results(notes), more, left) && CallsDone(calls, o, i, j, notes, more, left, error)
    decreases |calls| - j
  {
    notes, more, left := [], [], NOTHING;
    if j == |calls| {
      GrewNothing(s);
    } else {
      var (next, r) := Called(s, calls[j], o, i, j);
      if r.Err? {
        left := RaisedLaw(s, calls, o, i, j);
      } else {
        var mid, now := Answered(next, r.value), launched || Launches(calls[j]);
        notes, more, left := CalledFromLaw(mid, calls, o, i, j + 1, now);
        var (t, _, error) := CalledFrom(mid, calls, o, i, j + 1, now);
        notes, more := CallThenRest(s, mid, t, calls, o, i, j, r.value, notes, more, left, error);
      }
    }
  }

  lemma {:induction false} LaunchedExactly(s: State, calls: seq<ToolCall>, o: Oracle, i: nat, j: nat, launched: bool)
    requires j <= |calls| && CalledFrom(s, calls, o, i, j, launched).2 == None
    ensures CalledFrom(s, calls, o, i, j, launched).1 <==> launched || exists k :: j <= k < |calls| && Launches(calls[k])
    decreases |calls| - j
  {
    if j < |calls| {
      var (next, r) := Called(s, calls[j], o, i, j);
      LaunchedExactly(Answered(next, r.value), calls, o, i, j + 1, launched || Launches(calls[j]));
    }
  }

  // ---- The turn ----

  /** The launches of the last block: of all its calls, or of those before the one that raised. */
  function LaunchesAtEnd(blocks: seq<Block>): nat {
    if blocks == [] then 0
    else
      var b := blocks[|blocks| - 1];
      if |b.notes| <= |b.calls| then LaunchCount(b.calls, 0, |b.notes|) else 0
  }

  /** The turn ended, in round i + |blocks| - 1, at a call whose insert took effect. */
  predicate EndsAtInsert(blocks: seq<Block>, i: nat, o: Oracle) {
    && blocks != []
    && var b, n := blocks[|blocks| - 1], |blocks| - 1;
    |b.notes| < |b.calls| && Inserts(b.calls[|b.notes|]) && Applied(o.insert(i + n, |b.notes|))
  }

  predicate LeftAtEnd(left: Left, blocks: seq<Block>, i: nat, o: Oracle) {
    if blocks == [] then left == NOTHING
    else
      var b, n := blocks[|blocks| - 1], |blocks| - 1;
      if |b.notes| < |b.calls| then LeftBy(left, o, b.calls[|b.notes|], i + n, |b.notes|) else left == NOTHING
  }

  ghost predicate TurnDone(
    blocks: seq<Block>, more: seq<Part>, left: Left, o: Oracle, maxRounds: nat, i: nat, error: Option<Error>)
  {
    && i + |blocks| <= maxRounds && Ended(blocks, i, o, maxRounds, error)
    && |LaunchedRuns(more)| == LaunchesAtEnd(blocks) && LeftAtEnd(left, blocks, i, o)
  }

  lemma EndedOn(b: Block, blocks: seq<Block>, o: Oracle, maxRounds: nat, i: nat, error: Option<Error>)
    requires Round(b, i, o) && !Launching(b) && Ended(blocks, i + 1, o, maxRounds, error)
    ensures Ended([b] + blocks, i, o, maxRounds, error)
  {
    var all := [b] + blocks;
    QuietOn(b, blocks, o, i);
    assert i + |all| == i + 1 + |blocks|;
    if blocks != [] {
      var n := |blocks| - 1;
      QuietOn(b, blocks[..n], o, i);
      assert all[..n + 1] == [b] + blocks[..n];
      assert all[n + 1] == blocks[n] && i + (n + 1) == i + 1 + n;
    }
  }

  lemma LastStays(b: Block, blocks: seq<Block>, left: Left, o: Oracle, i: nat)
    requires Round(b, i, o) && !Launching(b) && LeftAtEnd(left, blocks, i + 1, o)
    ensures LeftAtEnd(left, [b] + blocks, i, o) && LaunchesAtEnd([b] + blocks) == LaunchesAtEnd(blocks)
  {
    var all := [b] + blocks;
    if blocks != [] {
      assert all[|all| - 1] == blocks[|blocks| - 1] && i + (|all| - 1) == i + 1 + (|blocks| - 1);
    } else {
      assert all[0] == b;
      NoLaunchNoCount(b.calls, 0, |b.calls|);
    }
  }

  lemma TurnDoneOn(
    b: Block, blocks: seq<Block>, more: seq<Part>, rest: seq<Part>, left: Left, o: Oracle, maxRounds: nat, i: nat,
    error: Option<Error>)
    requires Round(b, i, o) && !Launching(b) && LaunchedRuns(more) == []
    requires TurnDone(blocks, rest, left, o, maxRounds, i + 1, error)
    ensures TurnDone([b] + blocks, more + rest, left, o, maxRounds, i, error)
    ensures Flatten([b] + blocks) == Messages(b) + Flatten(blocks)
  {
    assert ([b] + blocks)[1..] == blocks;
    RunsAppend(more, rest);
    EndedOn(b, blocks, o, maxRounds, i, error);
    LastStays(b, blocks, left, o, i);
  }

  lemma QuietOn(b: Block, blocks: seq<Block>, o: Oracle, i: nat)
    requires Round(b, i, o) && !Launching(b)
    ensures Quiet([b] + blocks, i, o) <==> Quiet(blocks, i + 1, o)
  {
    var all := [b] + blocks;
    if Quiet(all, i, o) {
      forall k | 0 <= k < |blocks| ensures Round(blocks[k], i + 1 + k, o) && !Launching(blocks[k]) {
        assert all[k + 1] == blocks[k] && Round(all[k + 1], i + (k + 1), o);
      }
    }
    if Quiet(blocks, i + 1, o) {
      forall k | 0 <= k < |all| ensures Round(all[k], i + k, o) && !Launching(all[k]) {
        if k > 0 { assert all[k] == blocks[k - 1] && Round(blocks[k - 1], i + 1 + (k - 1), o); }
      }
    }
  }

  lemma LastRound(b: Block, o: Oracle, i: nat, maxRounds: nat, more: seq<Part>, left: Left, error: Option<Error>)
    requires i < maxRounds && o.reply(i) == Some(Reply(b.content, b.calls)) && b.calls != []
    requires CallsDone(b.calls, o, i, 0, b.notes, more, left, error)
    requires error.Some? || Launching(b)
    ensures TurnDone([b], more, left, o, maxRounds, i, error)
    ensures Flatten([b]) == Messages(b)
  {
    assert [b][..0] == [] && [b][1..] == [] && Messages(b) + [] == Messages(b);
    assert [b][0] == b;
  }

  /** A quiet round, and what the later ones left. */
  lemma RoundThenRest(
    s: State, t: State, u: State, b: Block, parts: seq<Part>, blocks: seq<Block>, more: seq<Part>, left: Left,
    o: Oracle, maxRounds: nat, i: nat, error: Option<Error>)
    returns (allBlocks: seq<Block>, all: seq<Part>)
    requires Round(b, i, o) && !Launching(b) && LaunchedRuns(parts) == [] && Grew(s, t, Messages(b), parts, NOTHING)
    requires Grew(t, u, Flatten(blocks), more, left) && TurnDone(blocks, more, left, o, maxRounds, i + 1, error)
    ensures Grew(s, u, Flatten(allBlocks), all, left) && TurnDone(allBlocks, all, left, o, maxRounds, i, error)
  {
    GrewOn(s, t, u, Messages(b), Flatten(blocks), parts, more, left);
    TurnDoneOn(b, blocks, parts, more, left, o, maxRounds, i, error);
    allBlocks, all := [b] + blocks, parts + more;
  }

  /** One round's calls, as a block. */
  lemma RoundLaw(s: State, o: Oracle, i: nat) returns (b: Block, parts: seq<Part>, left: Left)
    requires o.reply(i).Some? && o.reply(i).value.calls != []
    ensures
      var reply := o.reply(i).value;
      var (t, launched, error) := CalledFrom(Say(s, Assistant(reply.content, reply.calls)), reply.calls, o, i, 0, false);
      && b.content == reply.content && b.calls == reply.calls
      && Grew(s, t, Messages(b), parts, left) && CallsDone(b.calls, o, i, 0, b.notes, parts, left, error)
      && (error == None ==> (launched <==> Launching(b)) && (!launched ==> LaunchedRuns(parts) == []))
  {
    var reply := o.reply(i).value;
    var asked := Say(s, Assistant(reply.content, reply.calls));
    var notes;
    notes, parts, left := CalledFromLaw(asked, reply.calls, o, i, 0, false);
    b := Block(reply.content, reply.calls, notes);
    var (t, _, error) := CalledFrom(asked, reply.calls, o, i, 0, false);
    AskedGrew(s, asked, t, b, parts, left);
    if error == None {
      LaunchedExactly(asked, reply.calls, o, i, 0, false);
      NoLaunchNoCount(reply.calls, 0, |reply.calls|);
    }
  }

  lemma NoRound(s: State, o: Oracle, maxRounds: nat, i: nat)
    requires i <= maxRounds && (i == maxRounds || o.reply(i) == None || o.reply(i).value.calls == [])
    ensures ResolvedFrom(s, o, maxRounds, i).0 == s && Grew(s, s, Flatten([]), [], NOTHING)
    ensures TurnDone([], [], NOTHING, o, maxRounds, i, ResolvedFrom(s, o, maxRounds, i).1)
  {
    GrewNothing(s);
  }

  /** What a turn leaves, from any round on. */
  lemma {:induction false} ResolvedFromLaw(s: State, o: Oracle, maxRounds: nat, i: nat)
    returns (blocks: seq<Block>, more: seq<Part>, left: Left)
    requires i <= maxRounds
    ensures
      var (t, error) := ResolvedFrom(s, o, maxRounds, i);
      Grew(s, t, Flatten(blocks), more, left) && TurnDone(blocks, more, left, o, maxRounds, i, error)
    decreases maxRounds - i
  {
    if i == maxRounds || o.reply(i) == None || o.reply(i).value.calls == [] {
      blocks, more, left := [], [], NOTHING;
      NoRound(s, o, maxRounds, i);
    } else {
      var reply := o.reply(i).value;
      var (t, launched, error) := CalledFrom(Say(s, Assistant(reply.content, reply.calls)), reply.calls, o, i, 0, false);
      var b, parts, lost := RoundLaw(s, o, i);
      if error.Some? || launched {
        blocks, more, left := [b], parts, lost;
        LastRound(b, o, i, maxRounds, more, left, error);
      } else {
        blocks, more, left := ResolvedFromLaw(t, o, maxRounds, i + 1);
        var (u, last) := ResolvedFrom(t, o, maxRounds, i + 1);
        blocks, more := RoundThenRest(s, t, u, b, parts, blocks, more, left, o, maxRounds, i, last);
      }
    }
  }

  lemma AskedGrew(s: State, asked: State, t: State, b: Block, more: seq<Part>, left: Left)
    requires asked == Say(s, Assistant(b.content, b.calls)) && Grew(asked, t, Results(b.notes), more, left)
    ensures Grew(s, t, Messages(b), more, left)
  {
    Associative(s.history, [Assistant(b.content, b.calls)], Results(b.notes));
  }

  // ---- The main results ----

  /** The pairing the model's API expects, read off the messages alone: k >= 1 calls, then k results, over and over. */
  ghost predicate Paired(m: seq<Message>)
    decreases |m|
  {
    m == [] ||
    (&& m[0].Assistant? && 1 <= |m[0].calls| < |m|
     && (forall j | 1 <= j <= |m[0].calls| :: m[j].Tool? && Answers(m[j].note, m[0].calls[j - 1]))
     && Paired(m[|m[0].calls| + 1..]))
  }

  lemma {:induction false} ResultsAt(notes: seq<Note>)
    ensures |Results(notes)| == |notes| && forall k | 0 <= k < |notes| :: Results(notes)[k] == Tool(notes[k])
  {
    if notes != [] { ResultsAt(notes[1..]); }
  }

  lemma PairedOn(b: Block, i: nat, o: Oracle, rest: seq<Message>)
    requires Round(b, i, o) && Paired(rest)
    ensures Paired(Messages(b) + rest)
  {
    var m := Messages(b) + rest;
    ResultsAt(b.notes);
    assert m[|b.calls| + 1..] == rest;
    forall j | 1 <= j <= |b.calls| ensures m[j].Tool? && Answers(m[j].note, b.calls[j - 1]) {
      assert m[j] == Results(b.notes)[j - 1] == Tool(b.notes[j - 1]);
      assert Fits(b.notes[j - 1], b.calls[0 + (j - 1)], o.search(i, 0 + (j - 1)));
    }
  }

  lemma {:induction false} WholeRoundsPair(blocks: seq<Block>, i: nat, o: Oracle)
    requires forall k | 0 <= k < |blocks| :: Round(blocks[k], i + k, o)
    ensures Paired(Flatten(blocks))
    decreases blocks
  {
    if blocks != [] {
      assert Round(blocks[0], i + 0, o);
      forall k | 0 <= k < |blocks[1..]| ensures Round(blocks[1..][k], i + 1 + k, o) {
        assert Round(blocks[k + 1], i + (k + 1), o);
      }
      WholeRoundsPair(blocks[1..], i + 1, o);
      PairedOn(blocks[0], i, o, Flatten(blocks[1..]));
    }
  }

  /** Some blocks, parts and leavings explain how a turn got from s to t. */
  ghost predicate WellFormed(s: State, t: State, error: Option<Error>, o: Oracle, maxRounds: nat) {
    exists blocks, more, left ::
      && Grew(s, t, Flatten(blocks), more, left) && TurnDone(blocks, more, left, o, maxRounds, 0, error)
      && |blocks| <= maxRounds
      && (error == None || error == Some(ModelUnreachable) ==> Paired(t.history[|s.history|..]))
  }

  /**
    A turn adds at most max_rounds blocks.  If it comes to an end, what it said pairs calls and results,
    and only the last block can launch; if a call raises, whole quiet rounds and one cut short at that
    call.  Launch parts are as many as the launches of the last block.
   */
  lemma TurnIsWellFormed(s: State, o: Oracle, maxRounds: nat)
    ensures
      var (t, error) := ResolvedFrom(s, o, maxRounds, 0);
      WellFormed(s, t, error, o, maxRounds)
  {
    var blocks, more, left := ResolvedFromLaw(s, o, maxRounds, 0);
    var (t, error) := ResolvedFrom(s, o, maxRounds, 0);
    if error == None || error == Some(ModelUnreachable) {
      forall k | 0 <= k < |blocks| ensures Round(blocks[k], 0 + k, o) {
        if !Quiet(blocks, 0, o) && k < |blocks| - 1 { assert Round(blocks[..|blocks| - 1][k], 0 + k, o); }
      }
      WholeRoundsPair(blocks, 0, o);
    }
    assert t.history[|s.history|..] == Flatten(blocks);
  }

  /**
    Runs put into the table, jobs put onto the queue and launch parts are equal in number exactly if the
    turn did not end at a call whose insert took effect: not at a launch refused or not inserted, and
    not at any other call.
   */
  lemma CountsAgreeExactly(s: State, o: Oracle, maxRounds: nat)
    returns (blocks: seq<Block>, more: seq<Part>, left: Left)
    ensures
      var (t, error) := ResolvedFrom(s, o, maxRounds, 0);
      && Grew(s, t, Flatten(blocks), more, left) && Ended(blocks, 0, o, maxRounds, error)
      && (|t.inserted| - |s.inserted| == |t.enqueued| - |s.enqueued| == |LaunchedRuns(t.parts[|s.parts|..])|
          <==> !EndsAtInsert(blocks, 0, o))
  {
    blocks, more, left := ResolvedFromLaw(s, o, maxRounds, 0);
    var (t, error) := ResolvedFrom(s, o, maxRounds, 0);
    assert t.parts[|s.parts|..] == more;
    LeftExactly(blocks, more, left, o, maxRounds, error);
  }

  lemma LeftExactly(blocks: seq<Block>, more: seq<Part>, left: Left, o: Oracle, maxRounds: nat, error: Option<Error>)
    requires TurnDone(blocks, more, left, o, maxRounds, 0, error)
    ensures |left.table| == (if EndsAtInsert(blocks, 0, o) then 1 else 0) && |left.queue| <= |left.table|
  {
  }

  // ---- Run ids ----

  /** The table's ids are its places, and the queue holds some of them, each once and in order. */
  ghost predicate Numbered(s: State) {
    && (forall k | 0 <= k < |s.inserted| :: s.inserted[k] == k)
    && (forall k | 0 <= k < |s.enqueued| :: s.enqueued[k] < |s.inserted|)
    && forall k, l | 0 <= k < l < |s.enqueued| :: s.enqueued[k] < s.enqueued[l]
  }

  lemma CallKeepsNumbered(s: State, call: ToolCall, o: Oracle, i: nat, j: nat)
    requires Numbered(s)
    ensures Numbered(Called(s, call, o, i, j).0)
  {
  }

  lemma {:induction false} CallsKeepNumbered(s: State, calls: seq<ToolCall>, o: Oracle, i: nat, j: nat, launched: bool)
    requires j <= |calls| && Numbered(s)
    ensures Numbered(CalledFrom(s, calls, o, i, j, launched).0)
    decreases |calls| - j
  {
    if j < |calls| {
      var (next, r) := Called(s, calls[j], o, i, j);
      CallKeepsNumbered(s, calls[j], o, i, j);
      if r.Ok? { CallsKeepNumbered(Answered(next, r.value), calls, o, i, j + 1, launched || Launches(calls[j])); }
    }
  }

  /** However a turn ends, every run it inserted has an id of its own, and no run is on the queue twice or without being inserted. */
  lemma {:induction false} RunsAreDistinct(s: State, o: Oracle, maxRounds: nat, i: nat)
    requires Numbered(s)
    ensures Numbered(ResolvedFrom(s, o, maxRounds, i).0)
    decreases maxRounds - i
  {
    if i < maxRounds && o.reply(i).Some? && o.reply(i).value.calls != [] {
      var reply := o.reply(i).value;
      var start := Say(s, Assistant(reply.content, reply.calls));
      var (next, launched, error) := CalledFrom(start, reply.calls, o, i, 0, false);
      CallsKeepNumbered(start, reply.calls, o, i, 0, false);
      if error == None && !launched { RunsAreDistinct(next, o, maxRounds, i + 1); }
    }
  }
}
