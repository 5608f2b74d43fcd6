/**
  Schema statements, and when a file of them can be restarted: the runner commits each one on
  its own, so a run that dies leaves a prefix of the file behind and the next run starts over.
 */
module SchemaStatements {
  import opened Wrappers

  type Name = string
  type Definition = string
  type Schema = map<Name, Definition>

  /** `guarded` is IF NOT EXISTS on a CREATE and IF EXISTS on a DROP; without it the statement can fail. */
  datatype Statement =
    | Create(name: Name, definition: Definition, guarded: bool)
    | Drop(name: Name, guarded: bool)

  function Run(schema: Schema, s: Statement): Option<Schema> {
    match s
    case Create(name, definition, guarded) =>
      if name !in schema then Some(schema[name := definition]) else if guarded then Some(schema) else None
    case Drop(name, guarded) =>
      if name in schema then Some(schema - {name}) else if guarded then Some(schema) else None
  }

  function RunAll(schema: Schema, file: seq<Statement>): Option<Schema>
    decreases file
  {
    if file == [] then Some(schema)
    else match Run(schema, file[0])
      case Some(next) => RunAll(next, file[1..])
      case None => None
  }

  /** The first statement on each name is guarded; later ones need not be. */
  predicate FirstTouchGuarded(file: seq<Statement>) {
    forall i | 0 <= i < |file| :: file[i].guarded || exists j | 0 <= j < i :: file[j].name == file[i].name
  }

  // ---- One name at a time ----

  /** What a file does to one name: fail, or leave it absent or defined. */
  datatype Cell = Broken | Cell(value: Option<Definition>)

  function Touch(c: Cell, s: Statement, n: Name): Cell {
    if c.Broken? || s.name != n then c
    else match s
      case Create(_, definition, guarded) =>
        if c.value == None then Cell(Some(definition)) else if guarded then c else Broken
      case Drop(_, guarded) =>
        if c.value.Some? then Cell(None) else if guarded then c else Broken
  }

  function TouchAll(c: Cell, file: seq<Statement>, n: Name): Cell
    decreases file
  {
    if file == [] then c else TouchAll(Touch(c, file[0], n), file[1..], n)
  }

  function At(schema: Schema, n: Name): Cell {
    Cell(if n in schema then Some(schema[n]) else None)
  }

  lemma {:induction false} TouchAllAppend(c: Cell, a: seq<Statement>, b: seq<Statement>, n: Name)
    ensures TouchAll(c, a + b, n) == TouchAll(TouchAll(c, a, n), b, n)
    decreases a
  {
    if a == [] {
      assert a + b == b;
    } else {
      assert (a + b)[1..] == a[1..] + b;
      TouchAllAppend(Touch(c, a[0], n), a[1..], b, n);
    }
  }

  lemma {:induction false} BrokenStays(file: seq<Statement>, n: Name)
    ensures TouchAll(Broken, file, n) == Broken
    decreases file
  {
    if file != [] { BrokenStays(file[1..], n); }
  }

  /** A file runs exactly when it breaks no name, and then does to each name what its cell says. */
  lemma {:induction false} RunByName(schema: Schema, file: seq<Statement>)
    ensures RunAll(schema, file).Some? ==> forall n :: TouchAll(At(schema, n), file, n) == At(RunAll(schema, file).value, n)
    ensures RunAll(schema, file).None? ==> exists n :: TouchAll(At(schema, n), file, n) == Broken
    decreases file
  {
    if file != [] {
      match Run(schema, file[0])
      case Some(next) => {
        assert forall n :: Touch(At(schema, n), file[0], n) == At(next, n);
        RunByName(next, file[1..]);
        if RunAll(schema, file) == None {
          var n :| TouchAll(At(next, n), file[1..], n) == Broken;
          assert TouchAll(At(schema, n), file, n) == Broken;
        }
      }
      case None => {
        var n := file[0].name;
        BrokenStays(file[1..], n);
        assert TouchAll(At(schema, n), file, n) == Broken;
      }
    }
  }

  lemma SameCellsSameRun(a: Schema, b: Schema, file: seq<Statement>)
    requires forall n :: TouchAll(At(a, n), file, n) == TouchAll(At(b, n), file, n)
    ensures RunAll(a, file) == RunAll(b, file)
  {
    RunByName(a, file);
    RunByName(b, file);
    if RunAll(a, file).Some? && RunAll(b, file).Some? {
      var x, y := RunAll(a, file).value, RunAll(b, file).value;
      assert forall n :: At(x, n) == At(y, n);
      forall n ensures n in x <==> n in y { assert At(x, n) == At(y, n); }
      forall n | n in x ensures x[n] == y[n] { assert At(x, n) == At(y, n); }
      assert x == y;
    }
  }

  // ---- Restarting ----

  predicate SameShape(a: Cell, b: Cell) {
    a.Broken? == b.Broken? && (a.Cell? && b.Cell? ==> a.value.Some? == b.value.Some?)
  }

  lemma {:induction false} Lockstep(a: Cell, b: Cell, file: seq<Statement>, n: Name)
    requires SameShape(a, b)
    ensures SameShape(TouchAll(a, file, n), TouchAll(b, file, n))
    decreases file
  {
    if file != [] { Lockstep(Touch(a, file[0], n), Touch(b, file[0], n), file[1..], n); }
  }

  predicate Mentions(file: seq<Statement>, n: Name) {
    exists i | 0 <= i < |file| :: file[i].name == n
  }

  lemma {:induction false} Unmentioned(c: Cell, file: seq<Statement>, n: Name)
    requires !Mentions(file, n)
    ensures TouchAll(c, file, n) == c
    decreases file
  {
    if file != [] {
      assert file[0].name != n;
      assert forall i | 0 <= i < |file[1..]| :: file[1..][i].name == file[i + 1].name;
      Unmentioned(c, file[1..], n);
    }
  }

  lemma {:induction false} FirstMention(file: seq<Statement>, n: Name) returns (i: nat)
    requires Mentions(file, n)
    ensures i < |file| && file[i].name == n && !Mentions(file[..i], n)
    decreases file
  {
    if file[0].name == n {
      i := 0;
    } else {
      var k :| 0 <= k < |file| && file[k].name == n;
      assert file[1..][k - 1].name == n;
      var later := FirstMention(file[1..], n);
      i := later + 1;
      forall j | 0 <= j < i ensures file[..i][j].name != n {
        assert file[..i][j] == file[j];
        if j > 0 { assert file[1..][..later][j - 1] == file[j]; }
      }
    }
  }

  /** A guarded first statement forgets where it started from, up to the definition's text. */
  lemma ShapeForgotten(a: Cell, b: Cell, file: seq<Statement>, n: Name)
    requires a.Cell? && b.Cell? && Mentions(file, n) && FirstTouchGuarded(file)
    ensures SameShape(TouchAll(a, file, n), TouchAll(b, file, n))
  {
    var i := FirstMention(file, n);
    assert forall j | 0 <= j < i :: file[j].name == file[..i][j].name;
    assert file[i].guarded;
    FromFirstMention(a, file, i, n);
    FromFirstMention(b, file, i, n);
    Lockstep(Touch(a, file[i], n), Touch(b, file[i], n), file[i + 1..], n);
  }

  lemma FromFirstMention(c: Cell, file: seq<Statement>, i: nat, n: Name)
    requires i < |file| && !Mentions(file[..i], n)
    ensures TouchAll(c, file, n) == TouchAll(Touch(c, file[i], n), file[i + 1..], n)
  {
    assert file == file[..i] + file[i..] && file[i..][1..] == file[i + 1..];
    TouchAllAppend(c, file[..i], file[i..], n);
    Unmentioned(c, file[..i], n);
  }

  lemma PrefixGuarded(file: seq<Statement>, k: nat)
    requires k <= |file| && FirstTouchGuarded(file)
    ensures FirstTouchGuarded(file[..k])
  {
    forall i | 0 <= i < k ensures file[..k][i].guarded || exists j | 0 <= j < i :: file[..k][j].name == file[..k][i].name {
      if !file[i].guarded {
        var j :| 0 <= j < i && file[j].name == file[i].name;
        assert file[..k][j].name == file[..k][i].name;
      }
    }
  }

  lemma TouchAgain(w: Cell, z: Cell, s: Statement, n: Name)
    requires w.Cell? && SameShape(w, z) && (Touch(w, s, n) == w ==> z == w)
    ensures Touch(z, s, n) == Touch(w, s, n)
  {
  }

  lemma TouchTwice(c: Cell, s: Statement, n: Name)
    requires s.name == n ==> s.guarded
    ensures Touch(Touch(c, s, n), s, n) == Touch(c, s, n)
  {
  }

  /** Running a file twice does to a name what running it once does. */
  lemma {:induction false} TwiceIsOnce(c: Cell, file: seq<Statement>, n: Name)
    requires c.Cell? && FirstTouchGuarded(file) && TouchAll(c, file, n).Cell?
    ensures TouchAll(TouchAll(c, file, n), file, n) == TouchAll(c, file, n)
    decreases |file|
  {
    if file != [] {
      var k := |file| - 1;
      var front, last := file[..k], file[k];
      assert file == front + [last];
      var w := TouchAll(c, front, n);
      var r := TouchAll(c, file, n);
      TouchAllAppend(c, front, [last], n);
      TouchAllAppend(r, front, [last], n);
      OneStatement(w, last, n);
      OneStatement(TouchAll(r, front, n), last, n);
      PrefixGuarded(file, k);
      TwiceIsOnce(c, front, n);
      if Mentions(front, n) {
        ShapeForgotten(c, r, front, n);
        TouchAgain(w, TouchAll(r, front, n), last, n);
      } else {
        Unmentioned(c, front, n);
        Unmentioned(r, front, n);
        assert last.name == n ==> last.guarded;
        TouchTwice(c, last, n);
      }
    }
  }

  lemma OneStatement(c: Cell, s: Statement, n: Name)
    ensures TouchAll(c, [s], n) == Touch(c, s, n)
  {
    assert [s][1..] == [];
  }

  /** After any prefix, starting the file over ends where it would have ended. */
  lemma RestartCell(c: Cell, file: seq<Statement>, k: nat, n: Name)
    requires c.Cell? && k <= |file| && FirstTouchGuarded(file) && TouchAll(c, file, n).Cell?
    ensures TouchAll(TouchAll(c, file[..k], n), file, n) == TouchAll(c, file, n)
  {
    var p, q := file[..k], file[k..];
    assert file == p + q;
    TouchAllAppend(c, p, q, n);
    TouchAllAppend(TouchAll(c, p, n), p, q, n);
    if TouchAll(c, p, n) == Broken { BrokenStays(q, n); }
    PrefixGuarded(file, k);
    TwiceIsOnce(c, p, n);
  }

  lemma {:induction false} RunAllAppend(schema: Schema, a: seq<Statement>, b: seq<Statement>)
    ensures RunAll(schema, a + b)
      == match RunAll(schema, a) case Some(mid) => RunAll(mid, b) case None => None
    decreases a
  {
    if a == [] {
      assert a + b == b;
    } else {
      assert (a + b)[1..] == a[1..] + b;
      match Run(schema, a[0])
      case Some(next) => RunAllAppend(next, a[1..], b);
      case None =>
    }
  }

  lemma PrefixRuns(schema: Schema, file: seq<Statement>, k: nat)
    requires k <= |file| && RunAll(schema, file).Some?
    ensures RunAll(schema, file[..k]).Some?
  {
    assert file == file[..k] + file[k..];
    RunAllAppend(schema, file[..k], file[k..]);
  }

  /** Dying after k statements and starting over reaches the schema of one clean run. */
  lemma RestartAfterPrefix(schema: Schema, file: seq<Statement>, k: nat)
    requires k <= |file| && FirstTouchGuarded(file) && RunAll(schema, file).Some?
    ensures RunAll(schema, file[..k]).Some?
    ensures RunAll(RunAll(schema, file[..k]).value, file) == RunAll(schema, file)
  {
    PrefixRuns(schema, file, k);
    var mid := RunAll(schema, file[..k]).value;
    RunByName(schema, file[..k]);
    RunByName(schema, file);
    forall n ensures TouchAll(At(mid, n), file, n) == TouchAll(At(schema, n), file, n) {
      assert TouchAll(At(schema, n), file[..k], n) == At(mid, n);
      RestartCell(At(schema, n), file, k, n);
    }
    SameCellsSameRun(mid, schema, file);
  }

  /** Dying right after an unguarded first statement on a name makes the next run fail there. */
  lemma UnguardedCannotRestart(schema: Schema, file: seq<Statement>, i: nat)
    requires i < |file| && RunAll(schema, file).Some?
    requires !file[i].guarded && forall j | 0 <= j < i :: file[j].name != file[i].name
    ensures RunAll(schema, file[..i + 1]).Some?
    ensures RunAll(RunAll(schema, file[..i + 1]).value, file) == None
  {
    PrefixRuns(schema, file, i + 1);
    var n := file[i].name;
    var mid := RunAll(schema, file[..i + 1]).value;
    RunByName(schema, file[..i + 1]);
    RunByName(mid, file);
    var c, d := At(schema, n), At(mid, n);
    assert file[..i + 1] == file[..i] + [file[i]];
    assert !Mentions(file[..i], n);
    Unmentioned(c, file[..i], n);
    TouchAllAppend(c, file[..i], [file[i]], n);
    OneStatement(c, file[i], n);
    FromFirstMention(d, file, i, n);
    assert d == TouchAll(c, file[..i + 1], n) == Touch(c, file[i], n);
    assert Touch(d, file[i], n) == Broken;
    BrokenStays(file[i + 1..], n);
    assert TouchAll(d, file, n) == Broken;
  }

  /** A file that runs can be restarted from every prefix of itself exactly when first touches are guarded. */
  lemma RestartSafe(schema: Schema, file: seq<Statement>)
    requires RunAll(schema, file).Some?
    ensures FirstTouchGuarded(file) <==>
      forall k | 0 <= k <= |file| ::
        RunAll(schema, file[..k]).Some? && RunAll(RunAll(schema, file[..k]).value, file) == RunAll(schema, file)
  {
    if FirstTouchGuarded(file) {
      forall k | 0 <= k <= |file|
        ensures RunAll(schema, file[..k]).Some? && RunAll(RunAll(schema, file[..k]).value, file) == RunAll(schema, file)
      {
        RestartAfterPrefix(schema, file, k);
      }
    } else {
      var i :| 0 <= i < |file| && !file[i].guarded && forall j | 0 <= j < i :: file[j].name != file[i].name;
      UnguardedCannotRestart(schema, file, i);
      assert 0 <= i + 1 <= |file|;
    }
  }
}
