/** The research phase as the sequence of its progress writes, in the order the updates are streamed. */
module ResearchTrace {
  import opened Wrappers
  import opened Sequences
  import opened AgentStates
  import N = ResearchNodes
  import opened AgentRow
  import opened Faults
  import opened ResearchRun

  /** One record_node that took effect; only plan's carries a plan. */
  datatype Mark = Mark(node: Node, plan: Option<AgentStates.Plan>)

  function Noted(row: Row, ms: seq<Mark>): Row
    decreases ms
  {
    if ms == [] then row else Noted(RecordNode(row, ms[0].node, ms[0].plan), ms[1..])
  }

  lemma {:induction false} NotedSnoc(row: Row, ms: seq<Mark>, m: Mark)
    ensures Noted(row, ms + [m]) == RecordNode(Noted(row, ms), m.node, m.plan)
    decreases ms
  {
    if ms == [] {
      assert [] + [m] == [m] && [m][1..] == [];
    } else {
      assert (ms + [m])[1..] == ms[1..] + [m];
      NotedSnoc(RecordNode(row, ms[0].node, ms[0].plan), ms[1..], m);
    }
  }

  function NodesOf(ms: seq<Mark>): seq<Node> {
    seq(|ms|, i requires 0 <= i < |ms| => ms[i].node)
  }

  function Repeat(node: Node, n: nat): seq<Node> {
    seq(n, i => node)
  }

  /** The node of every update that the first n visits streamed. */
  function Stream(deps: N.Deps, o: Oracle, visits: seq<Node>, states: seq<AgentState>, n: nat): seq<Node>
    requires n <= |visits| && n < |states|
  {
    if n == 0 then []
    else
      Stream(deps, o, visits, states, n - 1)
        + Repeat(visits[n - 1], |Visit(deps, visits[n - 1], states[n - 1], o.answer(n - 1))|)
  }

  lemma {:induction false} StreamStays(
    deps: N.Deps, o: Oracle, visits: seq<Node>, states: seq<AgentState>, more: seq<Node>, later: seq<AgentState>, n: nat)
    requires n <= |visits| && n < |states|
    ensures Stream(deps, o, visits + more, states + later, n) == Stream(deps, o, visits, states, n)
  {
    if n > 0 { StreamStays(deps, o, visits, states, more, later, n - 1); }
  }

  predicate PlansByPlan(ms: seq<Mark>) {
    forall m | m in ms && m.node != Node.Plan :: m.plan == None
  }

  /** The row is what these marks made of it, and they are the stream so far, all of it but for a last write that failed. */
  predicate Marked(row: Row, ms: seq<Mark>, d: Drive, stream: seq<Node>) {
    && d.row == Noted(row, ms) && NodesOf(ms) <= stream && PlansByPlan(ms)
    && d.marks - 1 <= |ms| <= d.marks
    && (d.signal == Proceed ==> NodesOf(ms) == stream && |ms| == d.marks)
  }

  function MarkOf(d: Drive, node: Node, u: Update): Mark {
    Mark(node, if node == Node.Plan then Overwrite(d.shadow, u).plan else None)
  }

  lemma {:induction false} PersistMarked(row: Row, ms: seq<Mark>, d: Drive, o: Oracle, node: Node, us: seq<Update>, before: seq<Node>)
    returns (all: seq<Mark>)
    requires d.signal == Proceed && Marked(row, ms, d, before)
    ensures ms <= all && Marked(row, all, Persist(d, o, node, us), before + Repeat(node, |us|))
    decreases us
  {
    all := ms;
    if us == [] {
      assert before + Repeat(node, 0) == before;
    } else {
      var m, p := MarkOf(d, node, us[0]), PersistOne(d, o, node, us[0]);
      NotedSnoc(row, ms, m);
      assert NodesOf(ms + [m]) == NodesOf(ms) + [node];
      assert Repeat(node, |us|) == [node] + Repeat(node, |us| - 1);
      Associative(before, [node], Repeat(node, |us| - 1));
      if p.signal == Proceed {
        all := PersistMarked(row, ms + [m], p, o, node, us[1..], before + [node]);
      } else {
        all := if Applied(o.mark(d.marks)) then ms + [m] else ms;
        assert NodesOf(all) <= before + [node] <= before + [node] + Repeat(node, |us| - 1);
      }
    }
  }

  /** The stream of the visits that returned. */
  function Streamed(deps: N.Deps, o: Oracle, d: Drive): seq<Node>
    requires 0 < |d.states| <= |d.visits| + 1
  {
    Stream(deps, o, d.visits, d.states, |d.states| - 1)
  }

  /** Every visit so far returned, and the last state is the current one. */
  predicate InStride(k: nat, d: Drive) {
    |d.visits| == k && |d.states| == k + 1 && d.states[k] == d.state
  }

  lemma FailedVisitMarked(row: Row, ms: seq<Mark>, deps: N.Deps, o: Oracle, k: nat, node: Node, d: Drive)
    requires d.signal == Proceed && InStride(k, d) && Marked(row, ms, d, Streamed(deps, o, d)) && o.visit(k) != Fine
    ensures
      var v := VisitOnce(deps, o, k, node, d);
      && v.signal != Proceed && |v.states| == |v.visits| && Marked(row, ms, v, Streamed(deps, o, v))
  {
    VisitAdvances(deps, o, k, node, d);
    StreamStays(deps, o, d.visits, d.states, [node], [], k);
    assert d.states + [] == d.states;
  }

  lemma VisitMarked(row: Row, ms: seq<Mark>, deps: N.Deps, o: Oracle, k: nat, node: Node, d: Drive)
    returns (all: seq<Mark>)
    requires d.signal == Proceed && InStride(k, d) && Marked(row, ms, d, Streamed(deps, o, d)) && o.visit(k) == Fine
    ensures
      var v := VisitOnce(deps, o, k, node, d);
      InStride(k + 1, v) && ms <= all && Marked(row, all, v, Streamed(deps, o, v))
  {
    var us := Visit(deps, node, d.state, o.answer(k));
    var state := ReduceAll(d.state, us);
    var visited := d.(visits := d.visits + [node], state := state, states := d.states + [state]);
    all := PersistMarked(row, ms, visited, o, node, us, Streamed(deps, o, d));
    PersistKeeps(visited, o, node, us);
    StreamStays(deps, o, d.visits, d.states, [node], [state], k);
    StreamEnd(deps, o, visited, k, node, |us|);
  }

  lemma StreamEnd(deps: N.Deps, o: Oracle, d: Drive, k: nat, node: Node, n: nat)
    requires |d.visits| == k + 1 && |d.states| == k + 2 && d.visits[k] == node
    requires n == |Visit(deps, node, d.states[k], o.answer(k))|
    ensures Streamed(deps, o, d) == Stream(deps, o, d.visits, d.states, k) + Repeat(node, n)
  {
  }

  /** A research phase writes its progress update by update, in streaming order. */
  lemma {:induction false} ResearchMarked(row: Row, ms: seq<Mark>, deps: N.Deps, o: Oracle, k: nat, node: Node, d: Drive)
    returns (all: seq<Mark>)
    requires OnTrack(deps, node, d.state) && d.signal == Proceed && InStride(k, d)
    requires Marked(row, ms, d, Streamed(deps, o, d))
    ensures
      var r := Research(deps, o, k, node, d);
      && 0 < |r.states| <= |r.visits| + 1 && ms <= all && Marked(row, all, r, Streamed(deps, o, r))
    decreases Stage(node), Retries(deps, node, d.state), if node == Search || node == Structure then 1 else 0
  {
    all := ms;
    if Stage(node) > 0 {
      var v := VisitOnce(deps, o, k, node, d);
      VisitAdvances(deps, o, k, node, d);
      if o.visit(k) == Fine {
        all := VisitMarked(row, ms, deps, o, k, node, d);
      } else {
        FailedVisitMarked(row, ms, deps, o, k, node, d);
      }
      if v.signal == Proceed {
        StaysOnTrack(deps, node, d.state, o.answer(k));
        all := ResearchMarked(row, all, deps, o, k + 1, Next(deps, node, v.state), v);
      }
    }
  }
}
