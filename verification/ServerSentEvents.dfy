/**
  The server-sent-event printer of the gateway and the buffered parser of the frontend.
  Text is a sequence of characters: the byte encoding and its incremental decoding are below
  this model.  JSON text is opaque, known only through `Faithful`.
 */
module ServerSentEvents {
  import opened Wrappers
  import opened Sequences

  datatype Json<!V> = Json(print_: V -> string, parse: string -> Option<V>)

  datatype Event<V> = Event(name: string, data: V)

  datatype Item<V> = Named(event: Event<V>) | Comment(text: string)

  predicate NoNewline(s: string) {
    '\n' !in s
  }

  /** What is known of JSON text: it reads back, and has no raw newline and no blank at either end. */
  ghost predicate Faithful<V(!new)>(json: Json<V>) {
    forall v :: json.parse(json.print_(v)) == Some(v) && NoNewline(json.print_(v)) && Trim(json.print_(v)) == json.print_(v)
  }

  // ---- The string operations of the parser ----

  /** What JavaScript's trim removes: its white space and line terminators. */
  predicate IsBlank(c: char) {
    || '\t' <= c <= '\r' || c == ' '
    || c == '\U{00A0}' || c == '\U{1680}' || c == '\U{2028}' || c == '\U{2029}'
    || c == '\U{202F}' || c == '\U{205F}' || c == '\U{3000}' || c == '\U{FEFF}'
    || '\U{2000}' <= c <= '\U{200A}'
  }

  function TrimStart(s: string): (r: string)
    ensures r == "" || !IsBlank(r[0])
    ensures forall c | c in r :: c in s
  {
    if s != "" && IsBlank(s[0]) then TrimStart(s[1..]) else s
  }

  function TrimEnd(s: string): (r: string)
    ensures r <= s
    ensures r == "" || !IsBlank(r[|r| - 1])
    ensures s == "" || !IsBlank(s[|s| - 1]) ==> r == s
  {
    if s != "" && IsBlank(s[|s| - 1]) then TrimEnd(s[..|s| - 1]) else s
  }

  function Trim(s: string): (r: string)
    ensures r == "" || (!IsBlank(r[0]) && !IsBlank(r[|r| - 1]))
    ensures forall c | c in r :: c in s
  {
    TrimEnd(TrimStart(s))
  }

  lemma TrimIdempotent(s: string)
    ensures Trim(Trim(s)) == Trim(s)
  {
  }

  predicate SeparatorAt(s: string, i: nat) {
    i + 1 < |s| && s[i] == '\n' && s[i + 1] == '\n'
  }

  /** indexOf("\n\n") */
  function FindSeparator(s: string): (r: Option<nat>)
    ensures r.Some? ==> SeparatorAt(s, r.value) && forall j | 0 <= j < r.value :: !SeparatorAt(s, j)
    ensures r.None? ==> forall j: nat :: !SeparatorAt(s, j)
  {
    if |s| < 2 then None
    else if SeparatorAt(s, 0) then Some(0)
    else
      assert forall j: nat | j > 0 :: SeparatorAt(s, j) == SeparatorAt(s[1..], j - 1);
      match FindSeparator(s[1..])
      case Some(i) => Some(i + 1)
      case None => None
  }

  function IndexOfNewline(s: string): (i: nat)
    ensures i <= |s| && NoNewline(s[..i]) && (i < |s| ==> s[i] == '\n')
  {
    if s == "" || s[0] == '\n' then 0 else 1 + IndexOfNewline(s[1..])
  }

  /** split("\n") */
  function SplitLines(s: string): (lines: seq<string>)
    ensures |lines| > 0 && forall line | line in lines :: NoNewline(line)
  {
    var i := IndexOfNewline(s);
    if i == |s| then [s] else [s[..i]] + SplitLines(s[i + 1..])
  }

  const EVENT := "event:"
  const DATA := "data:"

  // ---- One frame ----

  datatype Fields = Fields(event: string, data: Option<string>)

  const START := Fields("message", None)

  function ReadLine(f: Fields, line: string): Fields {
    if EVENT <= line then f.(event := Trim(line[|EVENT|..]))
    else if DATA <= line then f.(data := Some(Trim(line[|DATA|..])))
    else f
  }

  function ReadLines(f: Fields, lines: seq<string>): Fields
    decreases lines
  {
    if lines == [] then f else ReadLines(ReadLine(f, lines[0]), lines[1..])
  }

  function ToEvent<V>(json: Json<V>, f: Fields): Option<Event<V>> {
    if f.data == None then None
    else match json.parse(f.data.value)
      case Some(v) => Some(Event(f.event, v))
      case None => None
  }

  function FrameEvent<V>(json: Json<V>, frame: string): Option<Event<V>> {
    ToEvent(json, ReadLines(START, SplitLines(frame)))
  }

  method ParseFrame<V>(json: Json<V>, frame: string) returns (event: Option<Event<V>>)
    ensures event == FrameEvent(json, frame)
  {
    var name := "message";
    var data: Option<string> := None;
    var lines := SplitLines(frame);
    var i := 0;
    while i < |lines|
      invariant 0 <= i <= |lines|
      invariant ReadLines(Fields(name, data), lines[i..]) == ReadLines(START, lines)
    {
      var line := lines[i];
      if EVENT <= line {
        name := Trim(line[|EVENT|..]);
      } else if DATA <= line {
        data := Some(Trim(line[|DATA|..]));
      }
      assert lines[i..][1..] == lines[i + 1..];
      i := i + 1;
    }
    if data == None {
      return None;
    }
    match json.parse(data.value) {
      case Some(v) => event := Some(Event(name, v));
      case None => event := None;
    }
  }

  // ---- What a frame says, line by line ----

  const JS_BLANKS: set<char> := {
    '\t', '\n', '\U{000B}', '\U{000C}', '\r', ' ', '\U{00A0}', '\U{1680}', '\U{2000}', '\U{2001}', '\U{2002}', '\U{2003}',
    '\U{2004}', '\U{2005}', '\U{2006}', '\U{2007}', '\U{2008}', '\U{2009}', '\U{200A}', '\U{2028}', '\U{2029}', '\U{202F}',
    '\U{205F}', '\U{3000}', '\U{FEFF}'}

  predicate AllBlank(s: string) {
    forall c | c in s :: c in JS_BLANKS
  }

  lemma BlankExactly(c: char)
    ensures IsBlank(c) <==> c in JS_BLANKS
  {
  }

  lemma {:induction false} TrimStartExact(s: string) returns (front: string)
    ensures s == front + TrimStart(s) && AllBlank(front)
  {
    front := "";
    if s != "" && IsBlank(s[0]) {
      BlankExactly(s[0]);
      var more := TrimStartExact(s[1..]);
      front := [s[0]] + more;
      assert s == [s[0]] + s[1..];
    }
  }

  lemma {:induction false} TrimEndExact(s: string) returns (back: string)
    ensures s == TrimEnd(s) + back && AllBlank(back)
  {
    back := "";
    if s != "" && IsBlank(s[|s| - 1]) {
      BlankExactly(s[|s| - 1]);
      var more := TrimEndExact(s[..|s| - 1]);
      back := more + [s[|s| - 1]];
      assert s == s[..|s| - 1] + [s[|s| - 1]];
    }
  }

  /** Trimming takes blanks off both ends, and leaves none at either. */
  lemma TrimExact(s: string) returns (front: string, back: string)
    ensures s == front + Trim(s) + back && AllBlank(front) && AllBlank(back)
    ensures Trim(s) == "" || (Trim(s)[0] !in JS_BLANKS && Trim(s)[|Trim(s)| - 1] !in JS_BLANKS)
  {
    front := TrimStartExact(s);
    back := TrimEndExact(TrimStart(s));
    var r := Trim(s);
    if r != "" {
      BlankExactly(r[0]);
      BlankExactly(r[|r| - 1]);
    }
  }

  function Joined(lines: seq<string>): string {
    if lines == [] then "" else if |lines| == 1 then lines[0] else lines[0] + "\n" + Joined(lines[1..])
  }

  /** Joined again, the lines are the text. */
  lemma {:induction false} SplitJoins(s: string)
    ensures Joined(SplitLines(s)) == s
    decreases |s|
  {
    var i := IndexOfNewline(s);
    if i < |s| {
      var rest := SplitLines(s[i + 1..]);
      SplitJoins(s[i + 1..]);
      JoinFirst(s[..i], rest);
      SplitAt(s, i);
    }
  }

  lemma JoinFirst(line: string, rest: seq<string>)
    requires rest != []
    ensures Joined([line] + rest) == line + "\n" + Joined(rest)
  {
    assert ([line] + rest)[1..] == rest;
  }

  lemma SplitAt(s: string, i: nat)
    requires i < |s| && s[i] == '\n'
    ensures s == s[..i] + "\n" + s[i + 1..]
  {
  }

  /** Line i is the last of its kind; i == |lines| for none. */
  predicate IsLast(lines: seq<string>, kind: string, i: nat) {
    && i <= |lines| && (i < |lines| ==> kind <= lines[i])
    && forall j | (if i < |lines| then i else -1) < j < |lines| :: !(kind <= lines[j])
  }

  /** The last event line names the event, and without one it is a message; the last data line is its data. */
  lemma {:induction false} LastLinesWin(f: Fields, lines: seq<string>, i: nat, j: nat)
    requires IsLast(lines, "event:", i) && IsLast(lines, "data:", j)
    ensures
      var r := ReadLines(f, lines);
      && r.event == (if i < |lines| then Trim(lines[i][6..]) else f.event)
      && r.data == (if j < |lines| then Some(Trim(lines[j][5..])) else f.data)
    decreases lines
  {
    if lines != [] {
      var rest := lines[1..];
      assert "event:"[0] == 'e' && "data:"[0] == 'd';
      assert forall k | 0 <= k < |rest| :: rest[k] == lines[k + 1];
      var i' := if i == |lines| then |rest| else if i == 0 then |rest| else i - 1;
      var j' := if j == |lines| then |rest| else if j == 0 then |rest| else j - 1;
      LastLinesWin(ReadLine(f, lines[0]), rest, i', j');
    }
  }

  /** A frame with no data line is no event; with one, its last data line is parsed and its last event line names it. */
  lemma FrameExactly<V>(json: Json<V>, frame: string, i: nat, j: nat)
    requires IsLast(SplitLines(frame), "event:", i) && IsLast(SplitLines(frame), "data:", j)
    ensures
      var lines := SplitLines(frame);
      FrameEvent(json, frame) ==
        if j == |lines| then None
        else match json.parse(Trim(lines[j][5..]))
          case None => None
          case Some(v) => Some(Event(if i == |lines| then "message" else Trim(lines[i][6..]), v))
  {
    LastLinesWin(START, SplitLines(frame), i, j);
  }

  // ---- The stream ----

  function Emit<V>(event: Option<Event<V>>): seq<Event<V>> {
    if event.Some? then [event.value] else []
  }

  /** The events of the complete frames in a text, and the text after the last of them. */
  function Drain<V>(json: Json<V>, text: string): (seq<Event<V>>, string)
    decreases |text|
  {
    match FindSeparator(text)
    case None => ([], text)
    case Some(i) =>
      var (events, rest) := Drain(json, text[i + 2..]);
      (Emit(FrameEvent(json, text[..i])) + events, rest)
  }

  function Flatten(chunks: seq<string>): string {
    if chunks == [] then "" else chunks[0] + Flatten(chunks[1..])
  }

  lemma FirstSeparator(s: string, i: nat)
    requires SeparatorAt(s, i) && forall j | 0 <= j < i :: !SeparatorAt(s, j)
    ensures FindSeparator(s) == Some(i)
  {
    var r := FindSeparator(s);
    assert r.Some?;
    assert !(r.value < i) && !(i < r.value);
  }

  lemma DrainFrame<V>(json: Json<V>, frame: string, rest: string)
    requires forall j | 0 <= j < |frame| :: !SeparatorAt(frame + "\n\n" + rest, j)
    ensures Drain(json, frame + "\n\n" + rest)
      == (Emit(FrameEvent(json, frame)) + Drain(json, rest).0, Drain(json, rest).1)
  {
    var text := frame + "\n\n" + rest;
    FirstSeparator(text, |frame|);
    assert text[..|frame|] == frame && text[|frame| + 2..] == rest;
  }

  /** One frame off the front. */
  lemma DrainAt<V>(json: Json<V>, text: string, i: nat)
    requires FindSeparator(text) == Some(i)
    ensures
      var (later, rest) := Drain(json, text[i + 2..]);
      Drain(json, text) == (Emit(FrameEvent(json, text[..i])) + later, rest)
  {
    assert SeparatorAt(text, i);
  }

  function FrameEvents<V>(json: Json<V>, frames: seq<string>): seq<Option<Event<V>>> {
    seq(|frames|, i requires 0 <= i < |frames| => FrameEvent(json, frames[i]))
  }

  function Framed(frames: seq<string>): string {
    if frames == [] then "" else frames[0] + "\n\n" + Framed(frames[1..])
  }

  /** A blank line ends a frame at the first place it can: frames, each with its blank line, and what is left without one. */
  ghost predicate Cut(text: string, frames: seq<string>, rest: string) {
    && text == Framed(frames) + rest && (forall j: nat :: !SeparatorAt(rest, j))
    && forall i | 0 <= i < |frames| :: forall j: nat | j < |frames[i]| :: !SeparatorAt(frames[i] + "\n\n", j)
  }

  /** Draining takes the events of exactly those frames that are one, in order, and leaves the rest. */
  lemma {:induction false} DrainIsCut<V>(json: Json<V>, text: string) returns (frames: seq<string>)
    ensures
      var (events, rest) := Drain(json, text);
      Cut(text, frames, rest) && Picks(events, FrameEvents(json, frames))
    decreases |text|
  {
    match FindSeparator(text)
    case None => {
      frames := [];
      assert Drain(json, text) == ([], text) && text == Framed([]) + text;
    }
    case Some(i) => {
      var later := DrainIsCut(json, text[i + 2..]);
      var (events, rest) := Drain(json, text[i + 2..]);
      frames := [text[..i]] + later;
      DrainAt(json, text, i);
      CutFirst(text, i, later, rest);
      assert FrameEvents(json, frames)[1..] == FrameEvents(json, later);
      PickFirst(events, FrameEvents(json, frames));
    }
  }

  lemma CutFirst(text: string, i: nat, later: seq<string>, rest: string)
    requires FindSeparator(text) == Some(i) && Cut(text[i + 2..], later, rest)
    ensures Cut(text, [text[..i]] + later, rest)
  {
    var frames, first := [text[..i]] + later, text[..i] + "\n\n";
    assert SeparatorAt(text, i) && first == text[..i + 2];
    assert frames[1..] == later && text == first + text[i + 2..];
    assert Framed(frames) + rest == first + (Framed(later) + rest);
    forall k | 0 <= k < |frames| ensures forall j: nat | j < |frames[k]| :: !SeparatorAt(frames[k] + "\n\n", j) {
      if k == 0 {
        assert forall j: nat | j < i :: SeparatorAt(first, j) == SeparatorAt(text, j);
      } else {
        assert frames[k] == later[k - 1];
      }
    }
  }

  lemma SeparatorStays(a: string, b: string, i: nat)
    requires FindSeparator(a) == Some(i)
    ensures FindSeparator(a + b) == Some(i) && (a + b)[..i] == a[..i] && (a + b)[i + 2..] == a[i + 2..] + b
  {
    assert forall j: nat | j <= i :: SeparatorAt(a + b, j) == SeparatorAt(a, j);
    FirstSeparator(a + b, i);
  }

  /** A text can be drained in two steps, wherever it is cut. */
  lemma {:induction false} DrainAppend<V>(json: Json<V>, a: string, b: string)
    ensures
      var (events, rest) := Drain(json, a);
      Drain(json, a + b) == (events + Drain(json, rest + b).0, Drain(json, rest + b).1)
    decreases |a|
  {
    match FindSeparator(a)
    case None => assert Drain(json, a) == ([], a) && [] + Drain(json, a + b).0 == Drain(json, a + b).0;
    case Some(i) => {
      SeparatorStays(a, b, i);
      DrainAt(json, a, i);
      DrainAt(json, a + b, i);
      DrainAppend(json, a[i + 2..], b);
      var (later, rest) := Drain(json, a[i + 2..]);
      Associative(Emit(FrameEvent(json, a[..i])), later, Drain(json, rest + b).0);
    }
  }

  lemma {:induction false} FlattenSnoc(chunks: seq<string>, chunk: string)
    ensures Flatten(chunks + [chunk]) == Flatten(chunks) + chunk
  {
    if chunks != [] {
      assert (chunks + [chunk])[1..] == chunks[1..] + [chunk];
      FlattenSnoc(chunks[1..], chunk);
    }
  }

  /**
    The reader loop.  Whatever the chunks, the events are those of the whole stream: where the
    stream is cut cannot matter.
   */
  method ParseSse<V>(json: Json<V>, chunks: seq<string>) returns (events: seq<Event<V>>)
    ensures events == Drain(json, Flatten(chunks)).0
  {
    events := [];
    var buffer := "";
    var n := 0;
    while n < |chunks|
      invariant 0 <= n <= |chunks|
      invariant (events, buffer) == Drain(json, Flatten(chunks[..n]))
    {
      OneMoreChunk(json, chunks, n);
      var ready;
      ready, buffer := TakeFrames(json, buffer + chunks[n]);
      events := events + ready;
      n := n + 1;
    }
    assert chunks[..n] == chunks;
  }

  /** The inner loop: every complete frame off the front of the buffer. */
  method TakeFrames<V>(json: Json<V>, text: string) returns (events: seq<Event<V>>, buffer: string)
    ensures (events, buffer) == Drain(json, text)
    ensures FindSeparator(buffer) == None
  {
    events, buffer := [], text;
    ghost var goal := Drain(json, text);
    assert events + goal.0 == goal.0;
    var separator := FindSeparator(buffer);
    while separator.Some?
      invariant separator == FindSeparator(buffer)
      invariant events + Drain(json, buffer).0 == goal.0
      invariant Drain(json, buffer).1 == goal.1
      decreases |buffer|
    {
      DrainStep(json, buffer, events);
      var event := ParseFrame(json, buffer[..separator.value]);
      buffer := buffer[separator.value + 2..];
      events := events + Emit(event);
      separator := FindSeparator(buffer);
    }
    DrainNothing(json, buffer, events);
  }

  lemma DrainNothing<V>(json: Json<V>, text: string, events: seq<Event<V>>)
    requires FindSeparator(text) == None
    ensures events + Drain(json, text).0 == events && Drain(json, text).1 == text
  {
    assert Drain(json, text) == ([], text);
    assert events + [] == events;
  }

  lemma DrainStep<V>(json: Json<V>, text: string, events: seq<Event<V>>)
    requires FindSeparator(text).Some?
    ensures
      var i := FindSeparator(text).value;
      var (later, rest) := Drain(json, text[i + 2..]);
      events + Drain(json, text).0 == events + Emit(FrameEvent(json, text[..i])) + later && Drain(json, text).1 == rest
  {
    var i := FindSeparator(text).value;
    DrainAt(json, text, i);
    Associative(events, Emit(FrameEvent(json, text[..i])), Drain(json, text[i + 2..]).0);
  }

  lemma OneMoreChunk<V>(json: Json<V>, chunks: seq<string>, n: nat)
    requires n < |chunks|
    ensures
      var (events, buffer) := Drain(json, Flatten(chunks[..n]));
      Drain(json, Flatten(chunks[..n + 1]))
        == (events + Drain(json, buffer + chunks[n]).0, Drain(json, buffer + chunks[n]).1)
  {
    DrainAppend(json, Flatten(chunks[..n]), chunks[n]);
    FlattenSnoc(chunks[..n], chunks[n]);
    assert chunks[..n + 1] == chunks[..n] + [chunks[n]];
  }

  // ---- The printer ----

  function EventFrame<V>(json: Json<V>, e: Event<V>): string {
    "event: " + e.name + "\ndata: " + json.print_(e.data)
  }

  function FormatSse<V>(json: Json<V>, e: Event<V>): string {
    EventFrame(json, e) + "\n\n"
  }

  function FormatSseComment(text: string): string {
    ": " + text + "\n\n"
  }

  function PrintItem<V>(json: Json<V>, item: Item<V>): string {
    match item
    case Named(e) => FormatSse(json, e)
    case Comment(text) => FormatSseComment(text)
  }

  function Print<V>(json: Json<V>, items: seq<Item<V>>): string {
    if items == [] then "" else PrintItem(json, items[0]) + Print(json, items[1..])
  }

  function EventsIn<V>(item: Item<V>): seq<Event<V>> {
    match item
    case Named(e) => [e]
    case Comment(_) => []
  }

  function EventsOf<V>(items: seq<Item<V>>): seq<Event<V>> {
    if items == [] then [] else EventsIn(items[0]) + EventsOf(items[1..])
  }

  /** An event name that survives: one line, no blank at either end. */
  predicate GoodName(name: string) {
    NoNewline(name) && Trim(name) == name
  }

  // ---- Round trip ----

  lemma SplitTwoLines(a: string, b: string)
    requires NoNewline(a) && NoNewline(b)
    ensures SplitLines(a + "\n" + b) == [a, b]
  {
    var s := a + "\n" + b;
    NewlineAfter(a, "\n" + b);
    assert s == a + ("\n" + b);
    assert IndexOfNewline(s) == |a| < |s|;
    assert s[..|a|] == a;
    assert s[|a| + 1..] == b;
    assert SplitLines(s) == [a] + SplitLines(b);
    SplitOneLine(b);
    assert [a] + [b] == [a, b];
  }

  lemma SplitOneLine(a: string)
    requires NoNewline(a)
    ensures SplitLines(a) == [a]
  {
    NewlineAfter(a, "");
    assert a + "" == a;
  }

  lemma {:induction false} NewlineAfter(a: string, b: string)
    requires NoNewline(a) && (b == "" || b[0] == '\n')
    ensures IndexOfNewline(a + b) == |a|
  {
    if a == "" {
      assert a + b == b;
    } else {
      assert (a + b)[1..] == a[1..] + b;
      NewlineAfter(a[1..], b);
    }
  }

  lemma EventLine(f: Fields, name: string)
    ensures ReadLine(f, "event: " + name) == f.(event := Trim(name))
  {
    assert EVENT <= "event: " + name && ("event: " + name)[|EVENT|..] == " " + name;
    TrimLeadingSpace(name);
  }

  lemma DataLine(f: Fields, text: string)
    ensures ReadLine(f, "data: " + text) == f.(data := Some(Trim(text)))
  {
    var line := "data: " + text;
    assert line[0] != EVENT[0];
    assert DATA <= line && line[|DATA|..] == " " + text;
    TrimLeadingSpace(text);
  }

  lemma ReadTwoLines(f: Fields, a: string, b: string)
    ensures ReadLines(f, [a, b]) == ReadLine(ReadLine(f, a), b)
  {
    assert [a, b][1..] == [b] && [b][1..] == [];
    assert ReadLines(ReadLine(f, a), [b]) == ReadLine(ReadLine(f, a), b);
  }

  lemma FrameRoundTrip<V(!new)>(json: Json<V>, e: Event<V>)
    requires Faithful(json) && GoodName(e.name)
    ensures FrameEvent(json, EventFrame(json, e)) == Some(e)
  {
    var text := json.print_(e.data);
    var first, second := "event: " + e.name, "data: " + text;
    assert EventFrame(json, e) == first + "\n" + second;
    SplitTwoLines(first, second);
    ReadTwoLines(START, first, second);
    EventLine(START, e.name);
    DataLine(START.(event := e.name), text);
  }

  lemma TrimLeadingSpace(s: string)
    ensures Trim(" " + s) == Trim(s)
  {
    assert (" " + s)[1..] == s;
  }

  lemma CommentRoundTrip<V>(json: Json<V>, text: string)
    requires NoNewline(text)
    ensures FrameEvent(json, ": " + text) == None
  {
    var line := ": " + text;
    SplitOneLine(line);
    assert line[0] != EVENT[0] && line[0] != DATA[0];
    assert ReadLines(START, [line]) == START;
  }

  ghost predicate CommentsOnOneLine<V>(items: seq<Item<V>>) {
    forall i | 0 <= i < |items| && items[i].Comment? :: NoNewline(items[i].text)
  }

  ghost predicate GoodNames<V>(events: seq<Event<V>>) {
    forall i | 0 <= i < |events| :: GoodName(events[i].name)
  }

  lemma DrainNamed<V(!new)>(json: Json<V>, e: Event<V>, rest: string)
    requires Faithful(json) && GoodName(e.name)
    ensures Drain(json, FormatSse(json, e) + rest) == ([e] + Drain(json, rest).0, Drain(json, rest).1)
  {
    FrameHasNoSeparator("event: " + e.name, "data: " + json.print_(e.data), rest);
    DrainFrame(json, EventFrame(json, e), rest);
    FrameRoundTrip(json, e);
  }

  lemma DrainComment<V>(json: Json<V>, text: string, rest: string)
    requires NoNewline(text)
    ensures Drain(json, FormatSseComment(text) + rest) == Drain(json, rest)
  {
    DrainFrame(json, ": " + text, rest);
    CommentRoundTrip(json, text);
    assert Emit(FrameEvent(json, ": " + text)) + Drain(json, rest).0 == Drain(json, rest).0;
  }

  lemma DrainItem<V(!new)>(json: Json<V>, item: Item<V>, rest: string)
    requires Faithful(json) && if item.Named? then GoodName(item.event.name) else NoNewline(item.text)
    ensures Drain(json, PrintItem(json, item) + rest) == (EventsIn(item) + Drain(json, rest).0, Drain(json, rest).1)
  {
    match item
    case Named(e) => DrainNamed(json, e, rest);
    case Comment(text) => {
      DrainComment(json, text, rest);
      assert [] + Drain(json, rest).0 == Drain(json, rest).0;
    }
  }

  lemma {:induction false} GoodItemsDrain<V(!new)>(json: Json<V>, items: seq<Item<V>>)
    requires Faithful(json) && CommentsOnOneLine(items) && GoodNames(EventsOf(items))
    ensures Drain(json, Print(json, items)) == (EventsOf(items), "")
  {
    if items == [] {
      assert Print(json, items) == "";
    } else {
      GoodTail(items);
      GoodItemsDrain(json, items[1..]);
      DrainItem(json, items[0], Print(json, items[1..]));
    }
  }

  lemma GoodTail<V>(items: seq<Item<V>>)
    requires items != [] && GoodNames(EventsOf(items))
    ensures GoodNames(EventsOf(items[1..])) && (items[0].Named? ==> GoodName(items[0].event.name))
  {
    var all, rest := EventsOf(items), EventsOf(items[1..]);
    if items[0].Named? {
      assert all == [items[0].event] + rest;
      assert all[0] == items[0].event;
      forall i | 0 <= i < |rest| ensures GoodName(rest[i].name) { assert rest[i] == all[i + 1]; }
    } else {
      assert all == [] + rest && [] + rest == rest;
    }
  }

  lemma FrameHasNoSeparator(a: string, b: string, rest: string)
    requires NoNewline(a) && NoNewline(b) && b != ""
    ensures forall j | 0 <= j < |a + "\n" + b| :: !SeparatorAt(a + "\n" + b + "\n\n" + rest, j)
  {
    var text := a + "\n" + b + "\n\n" + rest;
    forall j | 0 <= j < |a + "\n" + b| ensures !SeparatorAt(text, j) {
      if j < |a| { assert text[j] == a[j]; }
      else if j == |a| { assert text[j + 1] == b[0]; }
      else { assert text[j] == b[j - |a| - 1]; }
    }
  }

  lemma {:induction false} FieldNameIsGood(f: Fields, lines: seq<string>)
    requires GoodName(f.event) && forall line | line in lines :: NoNewline(line)
    ensures GoodName(ReadLines(f, lines).event)
    decreases lines
  {
    if lines != [] {
      var f1 := ReadLine(f, lines[0]);
      assert lines[0] in lines;
      if EVENT <= lines[0] { TrimIdempotent(lines[0][|EVENT|..]); }
      FieldNameIsGood(f1, lines[1..]);
    }
  }

  lemma FrameNameIsGood<V>(json: Json<V>, frame: string)
    ensures FrameEvent(json, frame).Some? ==> GoodName(FrameEvent(json, frame).value.name)
  {
    assert GoodName(START.event);
    FieldNameIsGood(START, SplitLines(frame));
  }

  /** The parser can only ever produce good names. */
  lemma {:induction false} DrainedNamesAreGood<V>(json: Json<V>, text: string)
    ensures GoodNames(Drain(json, text).0)
    decreases |text|
  {
    match FindSeparator(text)
    case None =>
    case Some(i) => {
      var (later, rest) := Drain(json, text[i + 2..]);
      FrameNameIsGood(json, text[..i]);
      DrainedNamesAreGood(json, text[i + 2..]);
      assert Drain(json, text).0 == Emit(FrameEvent(json, text[..i])) + later;
    }
  }

  /**
    Printed, concatenated, cut anywhere and parsed, a list of events and comments gives the events
    back, comments dropped, exactly when every event name is one trimmed line.
   */
  lemma RoundTrip<V(!new)>(json: Json<V>, items: seq<Item<V>>, chunks: seq<string>)
    requires Faithful(json) && CommentsOnOneLine(items)
    requires Flatten(chunks) == Print(json, items)
    ensures Drain(json, Flatten(chunks)).0 == EventsOf(items) <==> GoodNames(EventsOf(items))
  {
    if GoodNames(EventsOf(items)) {
      GoodItemsDrain(json, items);
    }
    DrainedNamesAreGood(json, Flatten(chunks));
  }
}
