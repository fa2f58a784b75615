/** Swift optionals (`T?`, and implicitly unwrapped `T!` fields that may hold nil), and dropping the nils from a list. */
module Wrappers {

  datatype Option<+T> = None | Some(value: T)

  /** The values of the present options, in order (Swift's `flatMap` over optionals, the SDK's `mapAndFilter`). */
  function Somes<T>(xs: seq<Option<T>>): (r: seq<T>)
    ensures |r| <= |xs|
  {
    if xs == [] then []
    else
      var last := xs[|xs| - 1];
      Somes(xs[..|xs| - 1]) + (if last.Some? then [last.value] else [])
  }

  /** Dropping nils distributes over concatenation, so the order of the values is the order of the options. */
  lemma {:induction false} SomesAppend<T>(a: seq<Option<T>>, b: seq<Option<T>>)
    ensures Somes(a + b) == Somes(a) + Somes(b)
    decreases |b|
  {
    if b == [] {
      assert a + b == a;
    } else {
      var b', last := b[..|b| - 1], b[|b| - 1];
      assert (a + b)[..|a + b| - 1] == a + b';
      assert (a + b)[|a + b| - 1] == last;
      SomesAppend(a, b');
    }
  }

  /** Extending a prefix by one option adds that option's value, if any. */
  lemma SomesExtend<T>(xs: seq<Option<T>>, i: nat)
    requires i < |xs|
    ensures Somes(xs[..i + 1]) == Somes(xs[..i]) + (if xs[i].Some? then [xs[i].value] else [])
  {
    assert xs[..i + 1][..i] == xs[..i];
  }

  /** Nothing is left exactly when every option is nil. */
  lemma {:induction false} SomesEmptyIff<T>(xs: seq<Option<T>>)
    ensures Somes(xs) == [] <==> forall i :: 0 <= i < |xs| ==> xs[i].None?
  {
    if xs != [] {
      var init := xs[..|xs| - 1];
      assert forall i :: 0 <= i < |init| ==> init[i] == xs[i];
      SomesEmptyIff(init);
    }
  }

  /** With no nil in the list, every value is kept in its place. */
  lemma {:induction false} SomesAllPresent<T>(xs: seq<Option<T>>)
    requires forall i :: 0 <= i < |xs| ==> xs[i].Some?
    ensures |Somes(xs)| == |xs|
    ensures forall i :: 0 <= i < |xs| ==> Some(Somes(xs)[i]) == xs[i]
  {
    if xs != [] {
      var init := xs[..|xs| - 1];
      assert forall i :: 0 <= i < |init| ==> init[i] == xs[i];
      SomesAllPresent(init);
    }
  }

  /** Every value kept comes from some option of the list. */
  lemma {:induction false} SomesSound<T>(xs: seq<Option<T>>)
    ensures forall k :: 0 <= k < |Somes(xs)| ==> exists i :: 0 <= i < |xs| && xs[i] == Some(Somes(xs)[k])
  {
    if xs != [] {
      var init, last := xs[..|xs| - 1], xs[|xs| - 1];
      SomesSound(init);
      var r, rest := Somes(xs), Somes(init);
      assert r == rest + (if last.Some? then [last.value] else []);
      forall k | 0 <= k < |r|
        ensures exists i :: 0 <= i < |xs| && xs[i] == Some(r[k])
      {
        if k < |rest| {
          var i :| 0 <= i < |init| && init[i] == Some(rest[k]);
          assert xs[i] == Some(r[k]);
        } else {
          assert xs[|xs| - 1] == Some(r[k]);
        }
      }
    } else {
      assert Somes(xs) == [];
    }
  }
}
