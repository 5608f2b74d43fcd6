/**
  The decide-loop of a chat turn: ask the model, run the tools it calls, put the calls and their
  results into the history, and ask again, up to a number of rounds.  The model, the graph search,
  the runs table and the queue are oracles; each may fail, the two stores before or after their effect.
 */
module ChatTools {
  import opened Wrappers
  import opened Faults

  const MIN_LENGTH := 3
  const MAX_TOPIC := 500

  /** search_knowledge_graph, launch_research_agent, or whatever else the model made up. */
  datatype ToolName = Search | Launch | Other(name: Option<string>)

  /** The stripped text arguments, empty when the model gave none. */
  datatype Arguments = Arguments(query: string, topic: string)

  /** No arguments at all: some value that is not an object.  NoFunction: nor is the called function. */
  datatype ToolCall = ToolCall(tool: ToolName, args: Option<Arguments>) | NoFunction

  datatype Reply = Reply(content: string, calls: seq<ToolCall>)

  type RunId = nat

  datatype Note =
    | UnusableQuery
    | SearchFailed(query: string)
    | SearchFound(query: string, text: string)
    | UnusableTopic
    | QueuedAs(topic: string, run: RunId)
    | Unrecognised(tool: ToolName)

  datatype Part = SearchPart(query: string, text: string) | LaunchPart(topic: string, run: RunId)

  datatype Message =
    | Prior(role: string, content: string)
    | Assistant(content: string, calls: seq<ToolCall>)
    | Tool(note: Note)

  datatype Error = ModelUnreachable | MalformedCall | SearchInterrupted | InvalidTopic | InsertFailed | EnqueueFailed

  /** A search that raises is answered with a note; one that is interrupted takes the turn with it. */
  datatype Searched = Found(text: string) | Failed | Interrupted

  /** The world's answers, by round and by call within the round. */
  datatype Oracle = Oracle(
    reply: nat -> Option<Reply>,
    search: (nat, nat) -> Searched,
    insert: (nat, nat) -> Fault,
    enqueue: (nat, nat) -> Fault)

  // ---- One call ----

  predicate Launches(call: ToolCall) {
    call.ToolCall? && call.tool == Launch && call.args.Some? && |call.args.value.topic| >= MIN_LENGTH
  }

  // ---- A turn ----

  /** The message history, the runs table and the queue as far as this turn wrote them, and the parts for the reader. */
  datatype State = State(history: seq<Message>, inserted: seq<RunId>, enqueued: seq<RunId>, parts: seq<Part>)

  function Say(s: State, m: Message): State {
    s.(history := s.history + [m])
  }

  datatype Answer = Answer(note: Note, part: Option<Part>)

  function SearchAnswer(args: Arguments, found: Searched): Result<Answer, Error> {
    if |args.query| < MIN_LENGTH then Ok(Answer(UnusableQuery, None))
    else match found
      case Interrupted => Err(SearchInterrupted)
      case Failed => Ok(Answer(SearchFailed(args.query), None))
      case Found(text) => Ok(Answer(SearchFound(args.query, text), Some(SearchPart(args.query, text))))
  }

  /** Insert, then enqueue; the run's id is the next in the table. */
  function Launched(s: State, args: Arguments, insert: Fault, enqueue: Fault): (State, Result<Answer, Error>) {
    var run := |s.inserted|;
    if |args.topic| < MIN_LENGTH then (s, Ok(Answer(UnusableTopic, None)))
    else if |args.topic| > MAX_TOPIC then (s, Err(InvalidTopic))
    else
      var s1 := if Applied(insert) then s.(inserted := s.inserted + [run]) else s;
      if insert != Fine then (s1, Err(InsertFailed))
      else
        var s2 := if Applied(enqueue) then s1.(enqueued := s1.enqueued + [run]) else s1;
        (s2, if enqueue != Fine then Err(EnqueueFailed)
             else Ok(Answer(QueuedAs(args.topic, run), Some(LaunchPart(args.topic, run)))))
  }

  function Called(s: State, call: ToolCall, o: Oracle, i: nat, j: nat): (State, Result<Answer, Error>) {
    if call.NoFunction? then (s, Err(MalformedCall))
    else match call.tool
      case Other(_) => (s, Ok(Answer(Unrecognised(call.tool), None)))
      case Search =>
        (s, if call.args == None then Err(MalformedCall) else SearchAnswer(call.args.value, o.search(i, j)))
      case Launch =>
        if call.args == None then (s, Err(MalformedCall)) else Launched(s, call.args.value, o.insert(i, j), o.enqueue(i, j))
  }

  function Answered(s: State, a: Answer): State {
    Say(s, Tool(a.note)).(parts := if a.part.Some? then s.parts + [a.part.value] else s.parts)
  }

  /** The calls of one reply from the j-th on; and whether one of them launched. */
  function CalledFrom(s: State, calls: seq<ToolCall>, o: Oracle, i: nat, j: nat, launched: bool): (State, bool, Option<Error>)
    requires j <= |calls|
    decreases |calls| - j
  {
    if j == |calls| then (s, launched, None)
    else
      var (next, r) := Called(s, calls[j], o, i, j);
      if r.Err? then (next, launched, Some(r.error))
      else CalledFrom(Answered(next, r.value), calls, o, i, j + 1, launched || Launches(calls[j]))
  }

  /** The rounds from the i-th on. */
  function ResolvedFrom(s: State, o: Oracle, maxRounds: nat, i: nat): (State, Option<Error>)
    decreases maxRounds - i
  {
    if i >= maxRounds then (s, None)
    else match o.reply(i)
      case None => (s, Some(ModelUnreachable))
      case Some(reply) =>
        if reply.calls == [] then (s, None)
        else
          var (next, launched, error) := CalledFrom(Say(s, Assistant(reply.content, reply.calls)), reply.calls, o, i, 0, false);
          if error.Some? || launched then (next, error) else ResolvedFrom(next, o, maxRounds, i + 1)
  }

  /** The history that the turn continues, the two stores, and the parts it collects. */
  class Turn {
    var history: seq<Message>
    var inserted: seq<RunId>
    var enqueued: seq<RunId>
    var parts: seq<Part>

    function View(): State
      reads this
    {
      State(history, inserted, enqueued, parts)
    }

    constructor (prior: seq<Message>)
      ensures View() == State(prior, [], [], [])
    {
      history, inserted, enqueued, parts := prior, [], [], [];
    }

    method RunSearch(args: Arguments, found: Searched) returns (r: Result<Answer, Error>)
      ensures r == SearchAnswer(args, found)
    {
      if |args.query| < MIN_LENGTH {
        return Ok(Answer(UnusableQuery, None));
      }
      match found {
        case Interrupted => r := Err(SearchInterrupted);
        case Failed => r := Ok(Answer(SearchFailed(args.query), None));
        case Found(text) => r := Ok(Answer(SearchFound(args.query, text), Some(SearchPart(args.query, text))));
      }
    }

    method RunLaunch(args: Arguments, insert: Fault, enqueue: Fault) returns (r: Result<Answer, Error>)
      modifies this`inserted, this`enqueued
      ensures (View(), r) == Launched(old(View()), args, insert, enqueue)
    {
      if |args.topic| < MIN_LENGTH {
        return Ok(Answer(UnusableTopic, None));
      }
      if |args.topic| > MAX_TOPIC {
        return Err(InvalidTopic);
      }
      var run := |inserted|;
      if Applied(insert) { inserted := inserted + [run]; }
      if insert != Fine {
        return Err(InsertFailed);
      }
      if Applied(enqueue) { enqueued := enqueued + [run]; }
      if enqueue != Fine {
        return Err(EnqueueFailed);
      }
      r := Ok(Answer(QueuedAs(args.topic, run), Some(LaunchPart(args.topic, run))));
    }

    method CallTool(call: ToolCall, o: Oracle, i: nat, j: nat) returns (r: Result<Answer, Error>)
      modifies this`inserted, this`enqueued
      ensures (View(), r) == Called(old(View()), call, o, i, j)
    {
      if call.NoFunction? {
        return Err(MalformedCall);
      }
      if call.tool.Other? {
        return Ok(Answer(Unrecognised(call.tool), None));
      }
      if call.args == None {
        return Err(MalformedCall);
      }
      if call.tool == Search {
        r := RunSearch(call.args.value, o.search(i, j));
      } else {
        r := RunLaunch(call.args.value, o.insert(i, j), o.enqueue(i, j));
      }
    }

    method ResolveTools(o: Oracle, maxRounds: nat) returns (error: Option<Error>)
      modifies this
      ensures (View(), error) == ResolvedFrom(old(View()), o, maxRounds, 0)
    {
      var i := 0;
      while i < maxRounds
        invariant 0 <= i <= maxRounds
        invariant ResolvedFrom(View(), o, maxRounds, i) == ResolvedFrom(old(View()), o, maxRounds, 0)
      {
        var decision := o.reply(i);
        if decision == None {
          return Some(ModelUnreachable);
        }
        var calls := decision.value.calls;
        if calls == [] {
          return None;
        }
        history := history + [Assistant(decision.value.content, calls)];
        ghost var start := View();
        var launched, j := false, 0;
        while j < |calls|
          invariant 0 <= j <= |calls|
          invariant CalledFrom(View(), calls, o, i, j, launched) == CalledFrom(start, calls, o, i, 0, false)
        {
          ghost var before := View();
          var r := CallTool(calls[j], o, i, j);
          if r.Err? {
            return Some(r.error);
          }
          if r.value.part.Some? {
            parts := parts + [r.value.part.value];
          }
          history := history + [Tool(r.value.note)];
          assert View() == Answered(Called(before, calls[j], o, i, j).0, r.value);
          launched := launched || Launches(calls[j]);
          j := j + 1;
        }
        if launched {
          return None;
        }
        i := i + 1;
      }
      error := None;
    }
  }
}
