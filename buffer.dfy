/**
 * The metric buffer (nncore/engine/buffer.py): a FIFO of
 * (value, iteration) pairs capped at `max_length`, with a running mean
 * over every value ever pushed, evicted ones included. Values are exact
 * reals.
 */
module MetricBuffer {
  import opened Wrappers

  /** One `(value, iteration)` pair. */
  datatype Entry = Entry(value: real, iteration: int)

  /** `list.pop(0)` on an empty list. */
  datatype BufferError = IndexError

  function Sum(xs: seq<real>): real
  {
    if xs == [] then 0.0 else Sum(xs[..|xs| - 1]) + xs[|xs| - 1]
  }

  function ValuesOf(es: seq<Entry>): (r: seq<real>)
    ensures |r| == |es| && forall i :: 0 <= i < |es| ==> r[i] == es[i].value
  {
    if es == [] then [] else ValuesOf(es[..|es| - 1]) + [es[|es| - 1].value]
  }

  /** The last `n` elements of `s`, or all of it when it is shorter. */
  function LastN<T>(s: seq<T>, n: nat): (r: seq<T>)
    ensures |r| == if |s| < n then |s| else n
  {
    if |s| <= n then s else s[|s| - n..]
  }

  /**
   * What a buffer of capacity `maxLength` holds after the pushes in
   * `history`: the newest `maxLength` of them when the capacity is
   * positive; all of them when it is negative (the length never equals
   * it, so nothing is evicted).
   */
  function Retained(history: seq<Entry>, maxLength: int): seq<Entry>
  {
    if maxLength >= 1 then LastN(history, maxLength) else history
  }

  /** Python's `s[-w:]`, the window of `avg` and `median`. */
  function PySuffix<T>(s: seq<T>, w: int): (r: seq<T>)
    ensures w >= 1 ==> r == LastN(s, w)
    ensures w == 0 ==> r == s
    ensures w < 0 ==> r == if -w < |s| then s[-w..] else []
  {
    if w > 0 then LastN(s, w)
    else if w == 0 then s
    else if -w < |s| then s[-w..] else []
  }

  /**
   * One push onto a full buffer drops exactly the oldest pair and appends
   * the new one; onto a buffer that is not full it only appends.
   */
  lemma RetainedStep(history: seq<Entry>, maxLength: int, e: Entry)
    requires maxLength != 0
    ensures var old_ := Retained(history, maxLength);
      Retained(history + [e], maxLength) ==
        if |old_| == maxLength then old_[1..] + [e] else old_ + [e]
  {
    var h' := history + [e];
    if maxLength >= 1 && |history| >= maxLength {
      assert h'[|h'| - maxLength..] == history[|history| - maxLength..][1..] + [e];
    }
  }

  lemma {:induction false} SumAppend(xs: seq<real>, x: real)
    ensures Sum(xs + [x]) == Sum(xs) + x
  {
    assert (xs + [x])[..|xs + [x]| - 1] == xs;
  }

  lemma ValuesOfAppend(es: seq<Entry>, e: Entry)
    ensures ValuesOf(es + [e]) == ValuesOf(es) + [e.value]
  {
  }

  /** The mean of every pushed value; 0 before the first push (`_global_avg = 0`). */
  function MeanOfAll(history: seq<Entry>): real
  {
    if |history| == 0 then 0.0 else Sum(ValuesOf(history)) / (|history| as real)
  }

  lemma IncrementalMean(total: real, c: nat, v: real)
    requires c > 0
    ensures total / (c as real) + (v - total / (c as real)) / ((c + 1) as real) ==
      (total + v) / ((c + 1) as real)
  {
    var n, m := c as real, (c + 1) as real;
    var a := total / n;
    assert a * n == total;
    calc {
      a + (v - a) / m;
      (a * m) / m + (v - a) / m;
      (a * m + v - a) / m;
      (a * n + v) / m;
      (total + v) / m;
    }
  }

  /**
   * The running-mean update `avg += (v - avg) / count`, applied after
   * `count` was raised, turns the mean of the pushes so far into the mean
   * of the pushes including `e`.
   */
  lemma RunningMeanStep(history: seq<Entry>, e: Entry)
    ensures MeanOfAll(history + [e]) == MeanStep(MeanOfAll(history), e.value, |history| + 1)
  {
    ValuesOfAppend(history, e);
    SumAppend(ValuesOf(history), e.value);
    if |history| > 0 {
      IncrementalMean(Sum(ValuesOf(history)), |history|, e.value);
    } else {
      assert ValuesOf(history + [e]) == [e.value];
      assert Sum([e.value]) == Sum([]) + e.value;
    }
  }

  /** `avg + (value - avg) / count`, the running-mean update. */
  function MeanStep(avg: real, value: real, count: nat): real
    requires count > 0
  {
    avg + (value - avg) / (count as real)
  }

  /** Mean of a non-empty list of values (np.mean). */
  function Mean(xs: seq<real>): (r: real)
    requires |xs| > 0
    ensures r * (|xs| as real) == Sum(xs)
  {
    DivTimes(Sum(xs), |xs| as real);
    Sum(xs) / (|xs| as real)
  }

  lemma DivTimes(a: real, n: real)
    requires n != 0.0
    ensures (a / n) * n == a
  {
  }

  /** `x` placed in front of the first element of the sorted `xs` that is not smaller. */
  function InsertSorted(xs: seq<real>, x: real): (r: seq<real>)
    requires Sorted(xs)
    ensures |r| == |xs| + 1
  {
    if xs == [] then [x]
    else if x <= xs[0] then [x] + xs
    else [xs[0]] + InsertSorted(xs[1..], x)
  }

  /** The insertion keeps the list sorted and adds exactly `x`. */
  lemma InsertSortedSpec(xs: seq<real>, x: real)
    requires Sorted(xs)
    ensures Sorted(InsertSorted(xs, x)) && multiset(InsertSorted(xs, x)) == multiset(xs) + multiset{x}
  {
    InsertSortedSorted(xs, x);
    InsertSortedPerm(xs, x);
  }

  lemma {:induction false} InsertSortedSorted(xs: seq<real>, x: real)
    requires Sorted(xs)
    ensures var r := InsertSorted(xs, x);
      Sorted(r) && (r[0] == x || (xs != [] && r[0] == xs[0]))
  {
    if xs != [] && x > xs[0] {
      var rest := InsertSorted(xs[1..], x);
      InsertSortedSorted(xs[1..], x);
      assert xs[0] <= rest[0] by {
        if |xs| > 1 {
          assert xs[0] <= xs[1];
        }
      }
      FrontSorted(xs[0], rest);
    } else if xs != [] {
      FrontSorted(x, xs);
    }
  }

  lemma {:induction false} InsertSortedPerm(xs: seq<real>, x: real)
    requires Sorted(xs)
    ensures multiset(InsertSorted(xs, x)) == multiset(xs) + multiset{x}
  {
    if xs != [] && x > xs[0] {
      var rest := InsertSorted(xs[1..], x);
      InsertSortedPerm(xs[1..], x);
      assert xs == [xs[0]] + xs[1..];
      assert multiset([xs[0]] + rest) == multiset{xs[0]} + multiset(rest);
      assert multiset(xs) == multiset{xs[0]} + multiset(xs[1..]);
    }
  }

  /** A sorted list stays sorted with a value no larger than its head in front. */
  lemma FrontSorted(y: real, rest: seq<real>)
    requires Sorted(rest) && rest != [] && y <= rest[0]
    ensures Sorted([y] + rest)
  {
    var r := [y] + rest;
    forall i, j | 0 <= i < j < |r| ensures r[i] <= r[j] {
      if i > 0 {
        assert r[i] == rest[i - 1] && r[j] == rest[j - 1];
      } else {
        assert r[j] == rest[j - 1] && rest[0] <= rest[j - 1];
      }
    }
  }

  predicate Sorted(xs: seq<real>)
  {
    forall i, j :: 0 <= i < j < |xs| ==> xs[i] <= xs[j]
  }

  /** The values in ascending order. */
  function SortReals(xs: seq<real>): (r: seq<real>)
    ensures Sorted(r) && multiset(r) == multiset(xs) && |r| == |xs|
  {
    if xs == [] then []
    else
      assert xs == xs[..|xs| - 1] + [xs[|xs| - 1]];
      var r := InsertSorted(SortReals(xs[..|xs| - 1]), xs[|xs| - 1]);
      InsertSortedSpec(SortReals(xs[..|xs| - 1]), xs[|xs| - 1]);
      assert |r| == |multiset(r)|;
      r
  }

  /**
   * np.median of a non-empty list: the middle value of the sorted list,
   * or the mean of the two middle values when the length is even. It lies
   * between the smallest and the largest value.
   */
  function Median(xs: seq<real>): (r: real)
    requires |xs| > 0
    ensures var s := SortReals(xs); s[0] <= r <= s[|s| - 1]
    ensures (exists i :: 0 <= i < |xs| && xs[i] <= r) && (exists j :: 0 <= j < |xs| && r <= xs[j])
  {
    var s := SortReals(xs);
    var n := |s|;
    assert s[0] in multiset(xs) && s[n - 1] in multiset(xs);
    if n % 2 == 1 then s[n / 2] else (s[n / 2 - 1] + s[n / 2]) / 2.0
  }

  class Buffer {
    /** `_max_length`. */
    const maxLength: int
    /** `_data`: the retained pairs, oldest first. */
    var data: seq<Entry>
    /** `_count`: number of successful updates. */
    var count: nat
    /** `_global_avg`: the running mean. */
    var globalAvg: real
    /** Every pair ever pushed, evicted ones included. */
    ghost var history: seq<Entry>

    ghost predicate Valid()
      reads this
    {
      && count == |history|
      && (maxLength == 0 ==> history == [])
      && data == Retained(history, maxLength)
      && globalAvg == MeanOfAll(history)
    }

    constructor (maxLength: int)
      ensures Valid() && this.maxLength == maxLength
      ensures history == [] && data == [] && count == 0 && globalAvg == 0.0
    {
      this.maxLength := maxLength;
      data := [];
      count := 0;
      globalAvg := 0.0;
      history := [];
    }

    /**
     * `update(value, iteration=None)`. A missing iteration defaults to the
     * number of earlier updates. With `max_length == 0` the eviction pops
     * from an empty list and the update fails before changing anything.
     */
    method Update(value: real, iteration: Option<int>) returns (err: Option<BufferError>)
      requires Valid()
      modifies this
      ensures Valid()
      ensures err.Some? <==> maxLength == 0
      ensures err.Some? ==>
        history == old(history) && data == old(data) && count == old(count) && globalAvg == old(globalAvg)
      ensures err.None? ==> count == old(count) + 1
      ensures err.None? ==>
        history == old(history) + [Entry(value, if iteration.Some? then iteration.value else old(count))]
      ensures err.None? ==>
        data == if |old(data)| == maxLength then old(data)[1..] + [history[|history| - 1]]
                else old(data) + [history[|history| - 1]]
    {
      var it := if iteration.Some? then iteration.value else count;
      if |data| == maxLength {
        if |data| == 0 {
          return Some(IndexError);
        }
        data := data[1..];
      }
      var e := Entry(value, it);
      data := data + [e];
      ghost var h' := history + [e];
      assert data == Retained(h', maxLength) by {
        RetainedStep(history, maxLength, e);
      }
      var avg := MeanStep(globalAvg, value, count + 1);
      assert avg == MeanOfAll(h') by {
        RunningMeanStep(history, e);
      }
      count := count + 1;
      globalAvg := avg;
      history := h';
      err := None;
    }

    /** `latest()`: the value of the newest update; an empty buffer raises. */
    function Latest(): (r: Result<real, BufferError>)
      reads this
      requires Valid()
      ensures r.Ok? <==> count > 0
      ensures r.Ok? ==> r.value == history[|history| - 1].value
    {
      if |data| == 0 then Err(IndexError) else Ok(data[|data| - 1].value)
    }

    /** The values of the window `_data[-window_size:]`. */
    function Window(windowSize: int): (r: seq<real>)
      reads this
      ensures windowSize >= 1 ==> |r| == (if |data| < windowSize then |data| else windowSize)
      ensures windowSize >= 1 ==> forall i :: 0 <= i < |r| ==> r[i] == data[|data| - |r| + i].value
      ensures windowSize == 0 ==> r == ValuesOf(data)
      ensures windowSize < 0 ==> |r| == (if -windowSize < |data| then |data| + windowSize else 0)
      ensures windowSize < 0 ==> forall i :: 0 <= i < |r| ==> r[i] == data[-windowSize + i].value
    {
      ValuesOf(PySuffix(data, windowSize))
    }

    /** `avg(window_size)`; None where np.mean of an empty window gives nan. */
    function Avg(windowSize: int): (r: Option<real>)
      reads this
      ensures r.Some? <==> |Window(windowSize)| > 0
      ensures r.Some? ==> r.value * (|Window(windowSize)| as real) == Sum(Window(windowSize))
    {
      var w := Window(windowSize);
      if |w| == 0 then None else Some(Mean(w))
    }

    /** `median(window_size)` over the same window as `avg`. */
    function MedianOf(windowSize: int): (r: Option<real>)
      reads this
      ensures r.Some? <==> |Window(windowSize)| > 0
      ensures r.Some? ==> var w := Window(windowSize);
        (exists i :: 0 <= i < |w| && w[i] <= r.value) && (exists j :: 0 <= j < |w| && r.value <= w[j])
    {
      var w := Window(windowSize);
      if |w| == 0 then None else Some(Median(w))
    }

    /** `global_avg()`: the mean of every value ever pushed, evicted ones included. */
    function GlobalAvg(): (r: real)
      reads this
      requires Valid()
      ensures count > 0 ==> r == Sum(ValuesOf(history)) / (count as real)
      ensures count == 0 ==> r == 0.0
    {
      globalAvg
    }

    /** `values()`: the retained pairs, the newest `max_length` pushed, in push order. */
    function Values(): (r: seq<Entry>)
      reads this
      requires Valid()
      ensures maxLength >= 1 ==> r == LastN(history, maxLength) && |r| <= maxLength
      ensures maxLength >= 1 ==> forall i :: 0 <= i < |r| ==> r[i] == history[|history| - |r| + i]
      ensures maxLength < 0 ==> r == history
    {
      data
    }
  }
}
