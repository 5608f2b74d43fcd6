/** Concatenation, and picking what there is out of a list of options. */
module Sequences {
  import opened Wrappers

  lemma Associative<T>(a: seq<T>, b: seq<T>, c: seq<T>)
    ensures a + b + c == a + (b + c)
  {
  }

  /** How many of the first n there are. */
  function Before<T>(some: seq<Option<T>>, n: nat): nat
    requires n <= |some|
  {
    if n == 0 then 0 else Before(some, n - 1) + if some[n - 1].Some? then 1 else 0
  }

  /** Exactly those that there are, in order. */
  ghost predicate Picks<T>(out: seq<T>, some: seq<Option<T>>) {
    && |out| == Before(some, |some|)
    && forall i | 0 <= i < |some| :: InPlace(out, some, i)
  }

  ghost predicate InPlace<T>(out: seq<T>, some: seq<Option<T>>, i: nat)
    requires i < |some|
  {
    some[i].Some? ==> Before(some, i) < |out| && out[Before(some, i)] == some[i].value
  }

  lemma {:induction false} BeforeStays<T>(some: seq<Option<T>>, x: Option<T>, n: nat)
    requires n <= |some|
    ensures Before(some + [x], n) == Before(some, n)
  {
    if n > 0 { BeforeStays(some, x, n - 1); }
  }

  lemma PickNext<T>(out: seq<T>, some: seq<Option<T>>, x: Option<T>)
    requires Picks(out, some)
    ensures Picks(out + (if x.Some? then [x.value] else []), some + [x])
  {
    var more := out + if x.Some? then [x.value] else [];
    BeforeStays(some, x, |some|);
    forall i | 0 <= i < |some + [x]| ensures InPlace(more, some + [x], i) {
      BeforeStays(some, x, if i < |some| then i else |some|);
      assert i < |some| ==> InPlace(out, some, i);
    }
  }

  lemma {:induction false} BeforeRest<T>(some: seq<Option<T>>, n: nat)
    requires n < |some|
    ensures Before(some, n + 1) == (if some[0].Some? then 1 else 0) + Before(some[1..], n)
  {
    if n > 0 { BeforeRest(some, n - 1); }
  }

  lemma PickFirst<T>(out: seq<T>, some: seq<Option<T>>)
    requires some != [] && Picks(out, some[1..])
    ensures Picks((if some[0].Some? then [some[0].value] else []) + out, some)
  {
    var all := (if some[0].Some? then [some[0].value] else []) + out;
    BeforeRest(some, |some| - 1);
    forall i | 0 <= i < |some| ensures InPlace(all, some, i) {
      if i > 0 {
        BeforeRest(some, i - 1);
        assert InPlace(out, some[1..], i - 1);
      }
    }
  }
}
