/**
 * Loops over a sequence that the recogniser and the index share: a loop that runs one step
 * per item and stops at the first step that raises, and a comprehension that maps and filters.
 */
module Steps {
  import opened Wrappers
  import opened PyValues

  /**
   * The outcomes of a loop that runs `step(x)` for each `x` in turn: a failing step raises,
   * the outcomes before it stand and the items after it are never looked at.
   */
  function Collect<T, O>(items: seq<T>, step: T -> Result<O, Error>): (seq<O>, Option<Error>) {
    if items == [] then ([], None)
    else
      match step(items[0])
      case Err(e) => ([], Some(e))
      case Ok(c) =>
        var rest := Collect(items[1..], step);
        ([c] + rest.0, rest.1)
  }

  /** The items before the first failing one are all done, in order; nothing after it is. */
  lemma {:induction false} CollectSpec<T, O>(items: seq<T>, step: T -> Result<O, Error>)
    ensures var r := Collect(items, step);
            && |r.0| <= |items|
            && (forall i :: 0 <= i < |r.0| ==> step(items[i]) == Ok(r.0[i]))
            && (r.1.None? ==> |r.0| == |items|)
            && (r.1.Some? ==> |r.0| < |items| && step(items[|r.0|]) == Err(r.1.value))
  {
    if items != [] && step(items[0]).Ok? {
      CollectSpec(items[1..], step);
    }
  }

  /** `Collect` from position `i`, one step unfolded. */
  lemma CollectStep<T, O>(items: seq<T>, step: T -> Result<O, Error>, i: nat)
    requires i < |items|
    ensures var r := Collect(items[i..], step);
            var rest := Collect(items[i + 1..], step);
            && (step(items[i]).Err? ==> r == ([], Some(step(items[i]).error)))
            && (step(items[i]).Ok? ==> r.0 == [step(items[i]).value] + rest.0 && r.1 == rest.1)
  {
    assert items[i..][0] == items[i] && items[i..][1..] == items[i + 1..];
  }

  /**
   * One more step of a loop that keeps the items done so far in `done`, for loops that run the
   * step themselves: a step that succeeds extends `done`, a step that raises ends the run.
   */
  lemma CollectNext<T, O>(items: seq<T>, step: T -> Result<O, Error>, i: nat, done: seq<O>)
    requires i < |items|
    requires Collect(items, step).0 == done + Collect(items[i..], step).0
    requires Collect(items, step).1 == Collect(items[i..], step).1
    ensures step(items[i]).Ok? ==>
              && Collect(items, step).0 == (done + [step(items[i]).value]) + Collect(items[i + 1..], step).0
              && Collect(items, step).1 == Collect(items[i + 1..], step).1
    ensures step(items[i]).Err? ==> Collect(items, step) == (done, Some(step(items[i]).error))
  {
    CollectStep(items, step, i);
    var rest := Collect(items[i + 1..], step).0;
    if step(items[i]).Ok? {
      var v := step(items[i]).value;
      assert done + ([v] + rest) == (done + [v]) + rest;
    } else {
      assert done + [] == done;
    }
  }

  /** The loop itself. */
  method CollectAll<T, O>(items: seq<T>, step: T -> Result<O, Error>) returns (done: seq<O>, err: Option<Error>)
    ensures done == Collect(items, step).0
    ensures err == Collect(items, step).1
  {
    done := [];
    err := None;
    var i := 0;
    assert items[0..] == items;
    while i < |items|
      invariant 0 <= i <= |items|
      invariant Collect(items, step).0 == done + Collect(items[i..], step).0
      invariant Collect(items, step).1 == Collect(items[i..], step).1
      invariant err.None?
    {
      CollectStep(items, step, i);
      var out := step(items[i]);
      if out.Err? {
        err := Some(out.error);
        break;
      }
      done := done + [out.value];
      i := i + 1;
    }
  }

  /** `[g for x in xs if (g := f(x)) is not None]`: a comprehension that maps and filters. */
  function FilterMap<T, U>(xs: seq<T>, f: T -> Option<U>): (r: seq<U>)
    ensures |r| <= |xs|
  {
    if xs == [] then [] else (if f(xs[0]).Some? then [f(xs[0]).value] else []) + FilterMap(xs[1..], f)
  }

  /** Every item of `FilterMap(xs, f)` is what `f` makes of some item of `xs`. */
  lemma {:induction false} FilterMapOrigin<T, U>(xs: seq<T>, f: T -> Option<U>)
    ensures forall i :: 0 <= i < |FilterMap(xs, f)| ==> exists j :: 0 <= j < |xs| && f(xs[j]) == Some(FilterMap(xs, f)[i])
    decreases |xs|
  {
    if xs != [] {
      FilterMapOrigin(xs[1..], f);
      var rest := FilterMap(xs[1..], f);
      var head := if f(xs[0]).Some? then [f(xs[0]).value] else [];
      assert FilterMap(xs, f) == head + rest;
      forall i | 0 <= i < |FilterMap(xs, f)|
        ensures exists j :: 0 <= j < |xs| && f(xs[j]) == Some(FilterMap(xs, f)[i])
      {
        if i < |head| {
          assert f(xs[0]) == Some(FilterMap(xs, f)[i]);
        } else {
          var j :| 0 <= j < |xs[1..]| && f(xs[1..][j]) == Some(rest[i - |head|]);
          assert f(xs[j + 1]) == Some(FilterMap(xs, f)[i]);
        }
      }
    } else {
      assert FilterMap(xs, f) == [];
    }
  }

  /** Everything `f` makes of an item of `xs` is in `FilterMap(xs, f)`. */
  lemma {:induction false} FilterMapKeeps<T, U>(xs: seq<T>, f: T -> Option<U>)
    ensures forall j :: 0 <= j < |xs| && f(xs[j]).Some? ==> f(xs[j]).value in FilterMap(xs, f)
    decreases |xs|
  {
    if xs != [] {
      FilterMapKeeps(xs[1..], f);
      var head := if f(xs[0]).Some? then [f(xs[0]).value] else [];
      assert FilterMap(xs, f) == head + FilterMap(xs[1..], f);
      forall j | 1 <= j < |xs| && f(xs[j]).Some? ensures f(xs[j]).value in FilterMap(xs, f) {
        assert xs[1..][j - 1] == xs[j];
      }
    }
  }

  /** When `f` keeps every item, `FilterMap` is the plain map. */
  lemma {:induction false} FilterMapAll<T, U>(xs: seq<T>, f: T -> Option<U>, ys: seq<U>)
    requires |xs| == |ys| && forall i :: 0 <= i < |xs| ==> f(xs[i]) == Some(ys[i])
    ensures FilterMap(xs, f) == ys
    decreases |xs|
  {
    if xs != [] {
      FilterMapAll(xs[1..], f, ys[1..]);
      assert ys == [ys[0]] + ys[1..];
    }
  }

  /** A non-empty sequence is its head followed by its tail. */
  lemma HeadTail<T>(xs: seq<T>)
    requires |xs| >= 1
    ensures [xs[0]] + xs[1..] == xs
  {
  }

  /** An item `f` keeps at the front stays at the front. */
  lemma FilterMapCons<T, U>(x: T, xs: seq<T>, f: T -> Option<U>, y: U)
    requires f(x) == Some(y)
    ensures FilterMap([x] + xs, f) == [y] + FilterMap(xs, f)
  {
    assert ([x] + xs)[1..] == xs;
  }

  /** `FilterMap` from position `i`, one item unfolded. */
  lemma FilterMapStep<T, U>(xs: seq<T>, f: T -> Option<U>, i: nat)
    requires i < |xs|
    ensures FilterMap(xs[i..], f) == (if f(xs[i]).Some? then [f(xs[i]).value] else []) + FilterMap(xs[i + 1..], f)
  {
    assert xs[i..][0] == xs[i] && xs[i..][1..] == xs[i + 1..];
  }

  /** The loop `[f(x) for x in xs if ...]` unrolls to. */
  method FilterMapEach<T, U>(xs: seq<T>, f: T -> Option<U>) returns (ys: seq<U>)
    ensures ys == FilterMap(xs, f)
  {
    ys := [];
    var i := 0;
    assert xs[0..] == xs;
    while i < |xs|
      invariant 0 <= i <= |xs|
      invariant FilterMap(xs, f) == ys + FilterMap(xs[i..], f)
    {
      FilterMapStep(xs, f, i);
      var y := f(xs[i]);
      var kept := if y.Some? then [y.value] else [];
      ys := ys + kept;
      i := i + 1;
    }
  }

  lemma AppendAssoc<T>(a: seq<T>, b: seq<T>, c: seq<T>)
    ensures (a + b) + c == a + (b + c)
  {
  }

  /** The parts one after the other. */
  function Flatten<T>(cs: seq<seq<T>>): seq<T> {
    if cs == [] then [] else cs[0] + Flatten(cs[1..])
  }

  /** Parts of two items each: part `i` lands at positions `2 * i` and `2 * i + 1`. */
  lemma {:induction false} FlattenPairs<T>(cs: seq<seq<T>>)
    requires forall i :: 0 <= i < |cs| ==> |cs[i]| == 2
    ensures |Flatten(cs)| == 2 * |cs|
    ensures forall i :: 0 <= i < |cs| ==> Flatten(cs)[2 * i] == cs[i][0] && Flatten(cs)[2 * i + 1] == cs[i][1]
    decreases |cs|
  {
    if cs != [] {
      FlattenPairs(cs[1..]);
      var rest := Flatten(cs[1..]);
      forall i | 1 <= i < |cs|
        ensures Flatten(cs)[2 * i] == cs[i][0] && Flatten(cs)[2 * i + 1] == cs[i][1]
      {
        assert cs[1..][i - 1] == cs[i];
        assert Flatten(cs)[2 * i] == rest[2 * (i - 1)];
        assert Flatten(cs)[2 * i + 1] == rest[2 * (i - 1) + 1];
      }
    }
  }

  /**
   * A step that yields two items per input: its run fails exactly when some input fails, with
   * that input's error, and otherwise lists the two items of input `i` at `2 * i` and `2 * i + 1`.
   */
  lemma CollectPairs<T, O>(items: seq<T>, step: T -> Result<seq<O>, Error>)
    requires forall x :: step(x).Ok? ==> |step(x).value| == 2
    ensures var run := Collect(items, step);
            && (run.1.None? <==> forall i :: 0 <= i < |items| ==> step(items[i]).Ok?)
            && (run.1.Some? ==> exists i :: 0 <= i < |items| && step(items[i]) == Err(run.1.value))
            && (run.1.None? ==>
                  && |Flatten(run.0)| == 2 * |items|
                  && forall i :: 0 <= i < |items| ==>
                       Flatten(run.0)[2 * i] == step(items[i]).value[0] &&
                       Flatten(run.0)[2 * i + 1] == step(items[i]).value[1])
  {
    var run := Collect(items, step);
    CollectSpec(items, step);
    if run.1.None? {
      FlattenPairs(run.0);
    } else {
      assert step(items[|run.0|]) == Err(run.1.value);
    }
  }
}
