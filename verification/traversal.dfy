/** The two loop shapes of the flattener, independent of what is read:
    `MapAll` appends one result per element, `ConcatAll` appends a run of
    results per element. Both visit the elements in order and stop at the
    first element whose step fails, whose error becomes the result.
 */
module Traversal {
  import opened Results

  /** `for x in xs: out.append(step(x))`. */
  function MapAll<A, B, E>(step: A -> Result<B, E>, xs: seq<A>): (r: Result<seq<B>, E>)
    ensures r.Success? <==> forall k :: 0 <= k < |xs| ==> step(xs[k]).Success?
    ensures r.Success? ==> |r.value| == |xs|
    ensures r.Success? ==> forall k :: 0 <= k < |xs| ==> step(xs[k]) == Success(r.value[k])
  {
    if |xs| == 0 then Success([])
    else
      var y :- step(xs[0]);
      var ys :- MapAll(step, xs[1..]);
      Success([y] + ys)
  }

  /** `for x in xs: out.extend(step(x))`. */
  function ConcatAll<A, B, E>(step: A -> Result<seq<B>, E>, xs: seq<A>): (r: Result<seq<B>, E>)
    ensures r.Success? <==> forall k :: 0 <= k < |xs| ==> step(xs[k]).Success?
  {
    if |xs| == 0 then Success([])
    else
      var y :- step(xs[0]);
      var ys :- ConcatAll(step, xs[1..]);
      Success(y + ys)
  }

  /** Running one stretch of a loop after another: the second counts only
      when the first succeeded, and their outputs concatenate. */
  function Then<B, E>(first: Result<seq<B>, E>, second: Result<seq<B>, E>): Result<seq<B>, E> {
    match first
    case Failure(e) => Failure(e)
    case Success(xs) =>
      match second
      case Failure(e) => Failure(e)
      case Success(ys) => Success(xs + ys)
  }

  /** The sum of `size` over the elements. */
  function Sum<A>(size: A -> nat, xs: seq<A>): nat {
    if |xs| == 0 then 0 else size(xs[0]) + Sum(size, xs[1..])
  }

  /** True when `size` predicts the length of every successful step. */
  ghost predicate SizedBy<A, B, E>(step: A -> Result<seq<B>, E>, size: A -> nat, xs: seq<A>) {
    forall k :: 0 <= k < |xs| && step(xs[k]).Success? ==> |step(xs[k]).value| == size(xs[k])
  }

  /** A successful `ConcatAll` produces exactly as many elements as the
      sizes add up to. */
  lemma {:induction false} ConcatLength<A, B, E>(step: A -> Result<seq<B>, E>, size: A -> nat, xs: seq<A>)
    requires SizedBy(step, size, xs)
    requires ConcatAll(step, xs).Success?
    ensures |ConcatAll(step, xs).value| == Sum(size, xs)
  {
    if |xs| > 0 {
      assert SizedBy(step, size, xs[1..]) by {
        forall k | 0 <= k < |xs[1..]| && step(xs[1..][k]).Success?
          ensures |step(xs[1..][k]).value| == size(xs[1..][k])
        {
          assert xs[1..][k] == xs[k + 1];
        }
      }
      ConcatLength(step, size, xs[1..]);
    }
  }

  /** Skipping the first element shifts every later offset by its size. */
  lemma SumStep<A>(size: A -> nat, xs: seq<A>, i: nat)
    requires 0 < i <= |xs|
    ensures Sum(size, xs[..i]) == size(xs[0]) + Sum(size, xs[1..][..i - 1])
  {
    assert xs[..i][1..] == xs[1..][..i - 1];
  }

  /** The offsets `Sum(size, xs[..i])` start at 0, grow by one element's
      size at a time and end at the total. */
  lemma {:induction false} SumLayout<A>(size: A -> nat, xs: seq<A>, i: nat)
    requires i < |xs|
    ensures Sum(size, xs[..0]) == 0
    ensures Sum(size, xs[..i + 1]) == Sum(size, xs[..i]) + size(xs[i])
    ensures Sum(size, xs[..|xs|]) == Sum(size, xs)
  {
    assert xs[..0] == [];
    assert xs[..|xs|] == xs;
    if i == 0 {
      SumStep(size, xs, 1);
      assert xs[1..][..0] == [];
    } else {
      SumLayout(size, xs[1..], i - 1);
      SumStep(size, xs, i);
      SumStep(size, xs, i + 1);
    }
  }

  /** A later element's run starts no earlier than where an earlier
      element's run ends. */
  lemma {:induction false} SumMonotone<A>(size: A -> nat, xs: seq<A>, i: nat, i2: nat)
    requires i < i2 <= |xs|
    ensures Sum(size, xs[..i]) + size(xs[i]) <= Sum(size, xs[..i2])
    decreases i2 - i
  {
    SumLayout(size, xs, i);
    if i + 1 < i2 {
      SumMonotone(size, xs, i + 1, i2);
      SumLayout(size, xs, i + 1);
    }
  }

  /** Different (element, item) pairs land on different positions: the runs
      of distinct elements do not overlap. */
  lemma PositionsDistinct<A>(size: A -> nat, xs: seq<A>, i: nat, j: nat, i2: nat, j2: nat)
    requires i < |xs| && j < size(xs[i])
    requires i2 < |xs| && j2 < size(xs[i2])
    requires Sum(size, xs[..i]) + j == Sum(size, xs[..i2]) + j2
    ensures i == i2 && j == j2
  {
    if i < i2 {
      SumMonotone(size, xs, i, i2);
    } else if i2 < i {
      SumMonotone(size, xs, i2, i);
    }
  }

  /** Element `j` of the run produced for `xs[i]` sits at position
      `Sum(size, xs[..i]) + j` of the output: runs keep the order of their
      elements, and each run keeps its own order. */
  lemma {:induction false} ConcatPosition<A, B, E>(step: A -> Result<seq<B>, E>, size: A -> nat,
                                                   xs: seq<A>, out: seq<B>, i: nat, j: nat)
    requires SizedBy(step, size, xs)
    requires ConcatAll(step, xs) == Success(out)
    requires i < |xs| && j < size(xs[i])
    ensures step(xs[i]).Success? && j < |step(xs[i]).value|
    ensures Sum(size, xs[..i]) + j < |out|
    ensures out[Sum(size, xs[..i]) + j] == step(xs[i]).value[j]
  {
    var first := step(xs[0]).value;
    var rest := ConcatAll(step, xs[1..]).value;
    assert out == first + rest;
    if i == 0 {
      assert xs[..0] == [];
    } else {
      assert SizedBy(step, size, xs[1..]) by {
        forall k | 0 <= k < |xs[1..]| && step(xs[1..][k]).Success?
          ensures |step(xs[1..][k]).value| == size(xs[1..][k])
        {
          assert xs[1..][k] == xs[k + 1];
        }
      }
      ConcatPosition(step, size, xs[1..], rest, i - 1, j);
      SumStep(size, xs, i);
    }
  }

  /** Every output element comes from one run: element `k` is element `j`
      of the run for `xs[i]`, with `k == Sum(size, xs[..i]) + j`. */
  lemma {:induction false} ConcatProvenance<A, B, E>(step: A -> Result<seq<B>, E>, size: A -> nat,
                                                     xs: seq<A>, out: seq<B>, k: nat)
    returns (i: nat, j: nat)
    requires SizedBy(step, size, xs)
    requires ConcatAll(step, xs) == Success(out)
    requires k < |out|
    ensures i < |xs| && step(xs[i]).Success? && j < |step(xs[i]).value| && j < size(xs[i])
    ensures k == Sum(size, xs[..i]) + j
    ensures out[k] == step(xs[i]).value[j]
  {
    var first := step(xs[0]).value;
    var rest := ConcatAll(step, xs[1..]).value;
    assert out == first + rest;
    if k < |first| {
      i, j := 0, k;
      assert xs[..0] == [];
    } else {
      assert SizedBy(step, size, xs[1..]) by {
        forall h | 0 <= h < |xs[1..]| && step(xs[1..][h]).Success?
          ensures |step(xs[1..][h]).value| == size(xs[1..][h])
        {
          assert xs[1..][h] == xs[h + 1];
        }
      }
      var i', j' := ConcatProvenance(step, size, xs[1..], rest, k - |first|);
      i, j := i' + 1, j';
      SumStep(size, xs, i);
    }
  }

  /** Mapping over `xs + ys` is mapping over `xs`, then over `ys`. */
  lemma {:induction false} MapAppend<A, B, E>(step: A -> Result<B, E>, xs: seq<A>, ys: seq<A>)
    ensures MapAll(step, xs + ys) == Then(MapAll(step, xs), MapAll(step, ys))
  {
    if |xs| == 0 {
      assert xs + ys == ys;
      var later := MapAll(step, ys);
      if later.Success? {
        assert [] + later.value == later.value;
      }
    } else {
      assert (xs + ys)[0] == xs[0];
      assert (xs + ys)[1..] == xs[1..] + ys;
      MapAppend(step, xs[1..], ys);
      var first := step(xs[0]);
      var rest := MapAll(step, xs[1..]);
      var later := MapAll(step, ys);
      if first.Success? && rest.Success? && later.Success? {
        assert [first.value] + (rest.value + later.value) == ([first.value] + rest.value) + later.value;
      }
    }
  }

  /** Concatenating over `xs + ys` is concatenating over `xs`, then over `ys`. */
  lemma {:induction false} ConcatAppend<A, B, E>(step: A -> Result<seq<B>, E>, xs: seq<A>, ys: seq<A>)
    ensures ConcatAll(step, xs + ys) == Then(ConcatAll(step, xs), ConcatAll(step, ys))
  {
    if |xs| == 0 {
      assert xs + ys == ys;
      var later := ConcatAll(step, ys);
      if later.Success? {
        assert [] + later.value == later.value;
      }
    } else {
      assert (xs + ys)[0] == xs[0];
      assert (xs + ys)[1..] == xs[1..] + ys;
      ConcatAppend(step, xs[1..], ys);
      var first := step(xs[0]);
      var rest := ConcatAll(step, xs[1..]);
      var later := ConcatAll(step, ys);
      if first.Success? && rest.Success? && later.Success? {
        assert first.value + (rest.value + later.value) == (first.value + rest.value) + later.value;
      }
    }
  }

  /** One more element extends a successful map by its one result, or
      ends it with that element's error. */
  lemma MapOneMore<A, B, E>(step: A -> Result<B, E>, xs: seq<A>, j: nat)
    requires j < |xs|
    ensures MapAll(step, xs[..j + 1])
            == Then(MapAll(step, xs[..j]),
                    match step(xs[j]) case Failure(e) => Failure(e) case Success(y) => Success([y]))
  {
    var prefix, last := xs[..j], [xs[j]];
    assert xs[..j + 1] == prefix + last;
    MapAppend(step, prefix, last);
    assert last[1..] == [];
    var r := step(xs[j]);
    if r.Success? {
      assert [r.value] + [] == [r.value];
    }
  }

  /** One more element extends a successful concatenation by its run, or
      ends it with that element's error. */
  lemma ConcatOneMore<A, B, E>(step: A -> Result<seq<B>, E>, xs: seq<A>, i: nat)
    requires i < |xs|
    ensures ConcatAll(step, xs[..i + 1]) == Then(ConcatAll(step, xs[..i]), step(xs[i]))
  {
    var prefix, last := xs[..i], [xs[i]];
    assert xs[..i + 1] == prefix + last;
    ConcatAppend(step, prefix, last);
    assert last[1..] == [];
    var r := step(xs[i]);
    if r.Success? {
      assert r.value + [] == r.value;
    }
  }

  /** When the elements before `j` succeed and element `j` fails, the whole
      map fails with element `j`'s error: later elements are never run. */
  lemma MapStopsAtFailure<A, B, E>(step: A -> Result<B, E>, xs: seq<A>, j: nat)
    requires j < |xs|
    requires MapAll(step, xs[..j]).Success?
    requires step(xs[j]).Failure?
    ensures MapAll(step, xs) == Failure(step(xs[j]).error)
  {
    var suffix := xs[j..];
    assert suffix[0] == xs[j];
    MapAppend(step, xs[..j], suffix);
    assert xs == xs[..j] + suffix;
  }

  /** When the elements before `i` succeed and element `i` fails, the whole
      concatenation fails with element `i`'s error. */
  lemma ConcatStopsAtFailure<A, B, E>(step: A -> Result<seq<B>, E>, xs: seq<A>, i: nat)
    requires i < |xs|
    requires ConcatAll(step, xs[..i]).Success?
    requires step(xs[i]).Failure?
    ensures ConcatAll(step, xs) == Failure(step(xs[i]).error)
  {
    var suffix := xs[i..];
    assert suffix[0] == xs[i];
    ConcatAppend(step, xs[..i], suffix);
    assert xs == xs[..i] + suffix;
  }

  /** A failing map fails with the error of its first failing element. */
  lemma {:induction false} MapFirstFailure<A, B, E>(step: A -> Result<B, E>, xs: seq<A>) returns (j: nat)
    requires MapAll(step, xs).Failure?
    ensures j < |xs|
    ensures forall k :: 0 <= k < j ==> step(xs[k]).Success?
    ensures step(xs[j]) == Failure(MapAll(step, xs).error)
  {
    if step(xs[0]).Failure? {
      j := 0;
    } else {
      var j' := MapFirstFailure(step, xs[1..]);
      j := j' + 1;
    }
  }

  /** A failing concatenation fails with the error of its first failing element. */
  lemma {:induction false} ConcatFirstFailure<A, B, E>(step: A -> Result<seq<B>, E>, xs: seq<A>) returns (i: nat)
    requires ConcatAll(step, xs).Failure?
    ensures i < |xs|
    ensures forall k :: 0 <= k < i ==> step(xs[k]).Success?
    ensures step(xs[i]) == Failure(ConcatAll(step, xs).error)
  {
    if step(xs[0]).Failure? {
      i := 0;
    } else {
      var i' := ConcatFirstFailure(step, xs[1..]);
      i := i' + 1;
    }
  }
}
