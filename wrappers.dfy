/** Optional values: Python's `None`-or-value results of `dict.get`. */
module Wrappers {

  datatype Option<+T> = None | Some(value: T) {

    /** The wrapped value, or `default` for `None` (as `dict.get(key, default)`). */
    function GetOr(default: T): T {
      match this
      case Some(v) => v
      case None => default
    }
  }

  /** Two lists of output, one after the other, or `None` when either step
      raised. */
  function Then<T>(a: Option<seq<T>>, b: Option<seq<T>>): Option<seq<T>>
  {
    if a.Some? && b.Some? then Some(a.value + b.value) else None
  }

  /** Four lines that are always written, then a part that may raise. */
  lemma ThenLeading<T>(a: seq<T>, b: seq<T>, c: seq<T>, d: seq<T>, e: Option<seq<T>>)
    ensures Then(Some(a), Then(Some(b), Then(Some(c), Then(Some(d), e)))) == Then(Some(a + b + c + d), e)
  {
    if e.Some? {
      assert a + (b + (c + (d + e.value))) == a + b + c + d + e.value;
    }
  }

  /** The outputs of `f` for every item, one after the other, or `None` as
      soon as one of them raised. */
  function ConcatMap<A, T>(f: A -> Option<seq<T>>, xs: seq<A>): Option<seq<T>>
  {
    if xs == [] then Some([]) else Then(ConcatMap(f, xs[..|xs| - 1]), f(xs[|xs| - 1]))
  }

  /** The whole succeeds exactly when every item does. */
  lemma {:induction false} ConcatMapSomeIff<A, T>(f: A -> Option<seq<T>>, xs: seq<A>)
    ensures ConcatMap(f, xs).Some? <==> forall i :: 0 <= i < |xs| ==> f(xs[i]).Some?
  {
    if xs != [] {
      var init := xs[..|xs| - 1];
      ConcatMapSomeIff(f, init);
      assert forall i :: 0 <= i < |init| ==> init[i] == xs[i];
    }
  }

  /** Everything an item writes is in the whole. */
  lemma {:induction false} ConcatMapHas<A, T>(f: A -> Option<seq<T>>, xs: seq<A>)
    requires ConcatMap(f, xs).Some?
    ensures forall i, x :: 0 <= i < |xs| && f(xs[i]).Some? && x in f(xs[i]).value ==> x in ConcatMap(f, xs).value
  {
    if xs != [] {
      var init := xs[..|xs| - 1];
      ConcatMapHas(f, init);
      assert forall i :: 0 <= i < |init| ==> init[i] == xs[i];
    }
  }

  /** When every item writes exactly one thing, the whole is those things in
      item order. */
  lemma {:induction false} ConcatMapSingles<A, T>(f: A -> Option<seq<T>>, xs: seq<A>)
    requires ConcatMap(f, xs).Some?
    requires forall i :: 0 <= i < |xs| && f(xs[i]).Some? ==> |f(xs[i]).value| == 1
    ensures |ConcatMap(f, xs).value| == |xs|
    ensures forall i :: 0 <= i < |xs| ==> f(xs[i]) == Some([ConcatMap(f, xs).value[i]])
  {
    if xs != [] {
      var init := xs[..|xs| - 1];
      assert forall i :: 0 <= i < |init| ==> init[i] == xs[i];
      ConcatMapSingles(f, init);
      var a := ConcatMap(f, init).value;
      var b := f(xs[|xs| - 1]).value;
      assert ConcatMap(f, xs).value == a + b;
      forall i | 0 <= i < |xs|
        ensures f(xs[i]) == Some([(a + b)[i]])
      {
        if i < |init| {
          assert init[i] == xs[i];
        } else {
          assert b == [b[0]];
        }
      }
    }
  }
}
