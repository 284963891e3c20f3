/**
 * The list and dict utilities (nncore/utils/misc.py): the type checks
 * `is_seq_of`, `is_list_of` and `is_tuple_of` over a tagged value type,
 * `slice_list` and `concat_list` with Python's slicing, and the two
 * transpositions `to_dict_of_list` and `to_list_of_dict` over maps.
 */
module Misc {
  import opened Wrappers

  /** The exceptions these helpers raise. */
  datatype MiscError = TypeError | ValueError | AssertionError | ZeroDivisionError | IndexError

  // ------------------------------------------------------------ type checks

  /** A Python value, as far as `isinstance` and iteration see it; a dict is seen through its keys. */
  datatype Value =
    | IntV(i: int)
    | BoolV(b: bool)
    | FloatV(r: real)
    | StrV(s: string)
    | NoneV
    | ListV(items: seq<Value>)
    | TupleV(items: seq<Value>)
    | DictV(keys: seq<Value>)

  /** The types the checks may be asked about; `SequenceType` is `collections.abc.Sequence`. */
  datatype PyType = IntType | BoolType | FloatType | StrType | NoneType | ListType | TupleType | DictType | SequenceType

  /** `isinstance(v, t)`; `bool` is a subclass of `int`, and str, list and tuple are Sequences. */
  predicate IsInstance(v: Value, t: PyType)
  {
    match t
    case IntType => v.IntV? || v.BoolV?
    case BoolType => v.BoolV?
    case FloatType => v.FloatV?
    case StrType => v.StrV?
    case NoneType => v.NoneV?
    case ListType => v.ListV?
    case TupleType => v.TupleV?
    case DictType => v.DictV?
    case SequenceType => v.StrV? || v.ListV? || v.TupleV?
  }

  /** `for item in v`: a string yields its one-character strings, a dict its keys; None when not iterable. */
  function Items(v: Value): (r: Option<seq<Value>>)
    ensures r.Some? <==> v.StrV? || v.ListV? || v.TupleV? || v.DictV?
  {
    match v
    case StrV(s) => Some(seq(|s|, i requires 0 <= i < |s| => StrV([s[i]])))
    case ListV(items) => Some(items)
    case TupleV(items) => Some(items)
    case DictV(keys) => Some(keys)
    case _ => None
  }

  /** Every item is an instance of `t`. */
  predicate AllOfType(items: seq<Value>, t: PyType)
  {
    forall i :: 0 <= i < |items| ==> IsInstance(items[i], t)
  }

  /**
   * `is_seq_of(seq, expected_type, seq_type)`: false when `seq` is not an
   * instance of the container type (`Sequence` by default); otherwise the
   * items are checked in order, returning false at the first mismatch.
   * A container type whose instances cannot be iterated fails the loop
   * with a TypeError.
   */
  method IsSeqOf(s: Value, expected: PyType, seqType: Option<PyType>) returns (r: Result<bool, MiscError>)
    ensures var container := if seqType.Some? then seqType.value else SequenceType;
      && (r.Err? <==> IsInstance(s, container) && Items(s).None?)
      && (r.Err? ==> r.error == TypeError)
      && (r.Ok? ==> (r.value <==> IsInstance(s, container) && AllOfType(Items(s).value, expected)))
  {
    var container := if seqType.Some? then seqType.value else SequenceType;
    if !IsInstance(s, container) {
      return Ok(false);
    }
    var items := Items(s);
    if items.None? {
      return Err(TypeError);
    }
    var xs := items.value;
    for k := 0 to |xs|
      invariant AllOfType(xs[..k], expected)
    {
      if !IsInstance(xs[k], expected) {
        return Ok(false);
      }
      assert xs[..k + 1] == xs[..k] + [xs[k]];
    }
    assert xs[..|xs|] == xs;
    return Ok(true);
  }

  /** `is_list_of(seq, expected_type)`: a list whose items are all of the type; an empty list passes. */
  method IsListOf(s: Value, expected: PyType) returns (r: bool)
    ensures r <==> s.ListV? && AllOfType(s.items, expected)
    ensures s == ListV([]) ==> r
  {
    var res := IsSeqOf(s, expected, Some(ListType));
    r := res.value;
  }

  /** `is_tuple_of(seq, expected_type)`: a tuple whose items are all of the type; an empty tuple passes. */
  method IsTupleOf(s: Value, expected: PyType) returns (r: bool)
    ensures r <==> s.TupleV? && AllOfType(s.items, expected)
    ensures s == TupleV([]) ==> r
  {
    var res := IsSeqOf(s, expected, Some(TupleType));
    r := res.value;
  }

  // ------------------------------------------------------------ slice and concat

  /** Python's `s[i:j]`: negative bounds count from the end, and both are clamped to the list. */
  function PySlice<T>(s: seq<T>, i: int, j: int): (r: seq<T>)
    ensures 0 <= i <= j <= |s| ==> r == s[i..j]
  {
    var n := |s|;
    var a := if i < 0 then (if i + n < 0 then 0 else i + n) else (if i > n then n else i);
    var b := if j < 0 then (if j + n < 0 then 0 else j + n) else (if j > n then n else j);
    if a >= b then [] else s[a..b]
  }

  function Sum(ls: seq<int>): int
  {
    if ls == [] then 0 else ls[0] + Sum(ls[1..])
  }

  /** `[n] * k`, empty when `k <= 0`. */
  function Repeat(n: int, k: int): (r: seq<int>)
    ensures |r| == (if k <= 0 then 0 else k) && forall i :: 0 <= i < |r| ==> r[i] == n
    decreases k
  {
    if k <= 0 then [] else [n] + Repeat(n, k - 1)
  }

  /** What `slice_list` may be handed as `lens`: an int, a list of ints, or anything else. */
  datatype Lens = LenInt(n: int) | LenList(ls: seq<int>) | LenOther

  /** The pieces `in_list[idx:idx + l]` for the lengths `l` in order, `idx` advancing by each. */
  function PiecesFrom<T>(s: seq<T>, ls: seq<int>, idx: int): (r: seq<seq<T>>)
  {
    if ls == [] then [] else [PySlice(s, idx, idx + ls[0])] + PiecesFrom(s, ls[1..], idx + ls[0])
  }

  /** The pieces `slice_list` cuts, starting at index 0. */
  function Pieces<T>(s: seq<T>, ls: seq<int>): seq<seq<T>>
  {
    PiecesFrom(s, ls, 0)
  }

  /**
   * `slice_list(in_list, lens)`. An int `n` must divide the length (the
   * `assert`; `n == 0` fails the modulo first) and stands for
   * `[n] * int(len / n)`; anything but an int or a list is a TypeError;
   * lengths that do not add up to the list's are a ValueError. Otherwise
   * one piece per length, cut consecutively.
   */
  method SliceList<T>(inList: seq<T>, lens: Lens) returns (r: Result<seq<seq<T>>, MiscError>)
    ensures lens.LenInt? && lens.n == 0 ==> r == Err(ZeroDivisionError)
    ensures lens.LenInt? && lens.n != 0 && |inList| % lens.n != 0 ==> r == Err(AssertionError)
    ensures lens.LenOther? ==> r == Err(TypeError)
    ensures lens.LenList? ==>
      (Sum(lens.ls) != |inList| ==> r == Err(ValueError)) &&
      (Sum(lens.ls) == |inList| ==> r == Ok(Pieces(inList, lens.ls)))
    ensures lens.LenInt? && lens.n != 0 && |inList| % lens.n == 0 ==>
      var ls := Repeat(lens.n, |inList| / lens.n);
      (Sum(ls) != |inList| ==> r == Err(ValueError)) &&
      (Sum(ls) == |inList| ==> r == Ok(Pieces(inList, ls)))
  {
    var ls: seq<int>;
    match lens {
      case LenInt(n) =>
        if n == 0 {
          return Err(ZeroDivisionError);
        }
        if |inList| % n != 0 {
          return Err(AssertionError);
        }
        ls := Repeat(n, |inList| / n);
      case LenList(l) =>
        ls := l;
      case LenOther =>
        return Err(TypeError);
    }
    if Sum(ls) != |inList| {
      return Err(ValueError);
    }
    var out := CutPieces(inList, ls);
    return Ok(out);
  }

  /** The output loop of `slice_list`: `idx` runs over the sums of the lengths taken so far. */
  method CutPieces<T>(inList: seq<T>, ls: seq<int>) returns (out: seq<seq<T>>)
    ensures out == Pieces(inList, ls)
  {
    out := [];
    var idx := 0;
    for i := 0 to |ls|
      invariant out + PiecesFrom(inList, ls[i..], idx) == Pieces(inList, ls)
    {
      PiecesFromStep(inList, ls, i, idx);
      out := out + [PySlice(inList, idx, idx + ls[i])];
      idx := idx + ls[i];
    }
    assert out + [] == out;
  }

  lemma PiecesFromStep<T>(s: seq<T>, ls: seq<int>, i: nat, idx: int)
    requires i < |ls|
    ensures PiecesFrom(s, ls[i..], idx) == [PySlice(s, idx, idx + ls[i])] + PiecesFrom(s, ls[i + 1..], idx + ls[i])
  {
    assert ls[i..][1..] == ls[i + 1..];
  }

  /** `list(chain(*in_list))`. */
  function ConcatList<T>(ls: seq<seq<T>>): (r: seq<T>)
    ensures ls != [] ==> ls[0] <= r
  {
    if ls == [] then [] else ls[0] + ConcatList(ls[1..])
  }

  function TotalLength<T>(ls: seq<seq<T>>): nat
  {
    if ls == [] then 0 else |ls[0]| + TotalLength(ls[1..])
  }

  /** The concatenation is as long as the pieces together. */
  lemma {:induction false} ConcatListLength<T>(ls: seq<seq<T>>)
    ensures |ConcatList(ls)| == TotalLength(ls)
  {
    if ls != [] {
      ConcatListLength(ls[1..]);
    }
  }

  /** Concatenation keeps the order of the pieces: concatenating two runs of pieces concatenates the results. */
  lemma {:induction false} ConcatListAppend<T>(a: seq<seq<T>>, b: seq<seq<T>>)
    ensures ConcatList(a + b) == ConcatList(a) + ConcatList(b)
  {
    if a == [] {
      assert a + b == b;
    } else {
      assert (a + b)[1..] == a[1..] + b;
      ConcatListAppend(a[1..], b);
    }
  }

  lemma {:induction false} SumNonNeg(ls: seq<int>)
    requires forall q :: 0 <= q < |ls| ==> ls[q] >= 0
    ensures Sum(ls) >= 0
  {
    if ls != [] {
      SumNonNeg(ls[1..]);
    }
  }

  /**
   * With non-negative lengths that fit from `idx`, the pieces are the
   * consecutive slices of the list and piece `q` has exactly `ls[q]`
   * elements.
   */
  lemma {:induction false} PieceLength<T>(s: seq<T>, ls: seq<int>, idx: int, q: nat)
    requires forall p :: 0 <= p < |ls| ==> ls[p] >= 0
    requires 0 <= idx && idx + Sum(ls) <= |s| && q < |ls|
    ensures |PiecesFrom(s, ls, idx)| == |ls| && |PiecesFrom(s, ls, idx)[q]| == ls[q]
  {
    PiecesCount(s, ls, idx);
    SumNonNeg(ls[1..]);
    if q > 0 {
      PieceLength(s, ls[1..], idx + ls[0], q - 1);
    }
  }

  lemma {:induction false} PiecesCount<T>(s: seq<T>, ls: seq<int>, idx: int)
    ensures |PiecesFrom(s, ls, idx)| == |ls|
  {
    if ls != [] {
      PiecesCount(s, ls[1..], idx + ls[0]);
    }
  }

  /** The pieces from `idx` concatenate back to the slice they cover. */
  lemma {:induction false} ConcatPiecesFrom<T>(s: seq<T>, ls: seq<int>, idx: int)
    requires forall p :: 0 <= p < |ls| ==> ls[p] >= 0
    requires 0 <= idx && idx + Sum(ls) <= |s|
    ensures Sum(ls) >= 0 && ConcatList(PiecesFrom(s, ls, idx)) == s[idx..idx + Sum(ls)]
  {
    SumNonNeg(ls);
    if ls != [] {
      SumNonNeg(ls[1..]);
      var m, e := idx + ls[0], idx + Sum(ls);
      var ps, rest := PiecesFrom(s, ls, idx), PiecesFrom(s, ls[1..], m);
      ConcatPiecesFrom(s, ls[1..], m);
      assert ps[0] == s[idx..m] && ps[1..] == rest;
      calc {
        ConcatList(ps);
        ps[0] + ConcatList(ps[1..]);
        s[idx..m] + s[m..e];
        s[idx..e];
      }
    }
  }

  /** `concat_list(slice_list(l, lens)) == l` when the lengths are non-negative and add up. */
  lemma ConcatPieces<T>(s: seq<T>, ls: seq<int>)
    requires Sum(ls) == |s| && forall q :: 0 <= q < |ls| ==> ls[q] >= 0
    ensures ConcatList(Pieces(s, ls)) == s
  {
    ConcatPiecesFrom(s, ls, 0);
    assert s[0..|s|] == s;
  }

  /** With an int `n > 0` dividing the length: `len / n` lengths, each `n`, adding up to the length. */
  lemma SliceByInt(len: nat, n: int)
    requires n > 0 && len % n == 0
    ensures var ls := Repeat(n, len / n);
      |ls| == len / n && Sum(ls) == len && forall q :: 0 <= q < |ls| ==> ls[q] == n
  {
    RepeatSum(n, len / n);
  }

  lemma {:induction false} RepeatSum(n: int, k: nat)
    ensures Sum(Repeat(n, k)) == n * k
  {
    if k > 0 {
      RepeatSum(n, k - 1);
      assert Repeat(n, k)[1..] == Repeat(n, k - 1);
      assert n * k == n + n * (k - 1);
    }
  }

  /** Negative lengths are not rejected, and then slicing and concatenation are no longer inverse. */
  lemma NegativeLengthsOverlap()
    ensures Sum([2, -1, 2]) == 3
    ensures Pieces([1, 2, 3], [2, -1, 2]) == [[1, 2], [], [2, 3]]
    ensures ConcatList(Pieces([1, 2, 3], [2, -1, 2])) == [1, 2, 2, 3]
  {
    var ls: seq<int> := [2, -1, 2];
    assert ls[1..] == [-1, 2] && ls[1..][1..] == [2] && ls[1..][1..][1..] == [];
    var ps: seq<seq<int>> := Pieces([1, 2, 3], ls);
    var s: seq<int> := [1, 2, 3];
    assert PiecesFrom(s, [2], 1) == [[2, 3]] by {
      assert s[1..3] == [2, 3];
    }
    assert PiecesFrom(s, [-1, 2], 2) == [[]] + [[2, 3]];
    assert PiecesFrom(s, ls, 0) == [[1, 2]] + [[], [2, 3]] by {
      assert s[0..2] == [1, 2];
    }
    assert ps == [[1, 2], [], [2, 3]];
    assert ps[1..] == [[], [2, 3]] && ps[1..][1..] == [[2, 3]] && |ps[1..][1..][1..]| == 0;
  }

  // ------------------------------------------------------------ transpositions

  /** `[item[key] for item in in_list]`. */
  function Column<K, V>(inList: seq<map<K, V>>, key: K): (r: seq<V>)
    requires forall i :: 0 <= i < |inList| ==> key in inList[i]
    ensures |r| == |inList| && forall i :: 0 <= i < |inList| ==> r[i] == inList[i][key]
  {
    seq(|inList|, i requires 0 <= i < |inList| => inList[i][key])
  }

  /** Neighbouring dicts with equal key sets make every dict's key set the first one's. */
  lemma {:induction false} SameKeys<K, V>(inList: seq<map<K, V>>, i: nat)
    requires forall q :: 0 <= q < |inList| - 1 ==> inList[q].Keys == inList[q + 1].Keys
    requires i < |inList|
    ensures inList[i].Keys == inList[0].Keys
  {
    if i > 0 {
      SameKeys(inList, i - 1);
    }
  }

  /**
   * `to_dict_of_list(in_list)`: every neighbouring pair of dicts must
   * have the same keys (a ValueError otherwise); an empty list fails on
   * `in_list[0]`; else each key of the first dict maps to the list of
   * that key's values, one per dict, in list order.
   */
  method ToDictOfList<K, V>(inList: seq<map<K, V>>) returns (r: Result<map<K, seq<V>>, MiscError>)
    ensures r == Err(ValueError) <==> exists q :: 0 <= q < |inList| - 1 && inList[q].Keys != inList[q + 1].Keys
    ensures r == Err(IndexError) <==> inList == []
    ensures r.Err? ==> r == Err(ValueError) || r == Err(IndexError)
    ensures r.Ok? ==> r.value.Keys == inList[0].Keys
    ensures r.Ok? ==> forall k :: k in r.value ==> |r.value[k]| == |inList|
    ensures r.Ok? ==> forall k, i :: k in r.value && 0 <= i < |inList| ==> k in inList[i] && r.value[k][i] == inList[i][k]
  {
    var q := 0;
    while q < |inList| - 1
      invariant 0 <= q <= (if |inList| > 0 then |inList| - 1 else 0)
      invariant forall p :: 0 <= p < q ==> inList[p].Keys == inList[p + 1].Keys
    {
      if inList[q].Keys != inList[q + 1].Keys {
        return Err(ValueError);
      }
      q := q + 1;
    }
    if |inList| == 0 {
      return Err(IndexError);
    }
    forall i | 0 <= i < |inList| ensures inList[i].Keys == inList[0].Keys {
      SameKeys(inList, i);
    }
    var out: map<K, seq<V>> := map[];
    var todo := inList[0].Keys;
    while todo != {}
      invariant todo <= inList[0].Keys && out.Keys == inList[0].Keys - todo
      invariant forall k :: k in out ==> out[k] == Column(inList, k)
      decreases |todo|
    {
      var key :| key in todo;
      out := out[key := Column(inList, key)];
      todo := todo - {key};
    }
    return Ok(out);
  }

  /** `{k: v[i] for k, v in in_dict.items()}`. */
  function Row<K, V>(inDict: map<K, seq<V>>, i: nat): (r: map<K, V>)
    requires forall k :: k in inDict ==> i < |inDict[k]|
    ensures r.Keys == inDict.Keys && forall k :: k in r ==> r[k] == inDict[k][i]
  {
    map k | k in inDict :: inDict[k][i]
  }

  /**
   * `to_list_of_dict(in_dict)` as written. Its consistency loop
   * subscripts the `dict_values` view on its first pass, which is a
   * TypeError, so two or more keys always fail. The output loop runs once
   * per key, not once per list element, and a list too short for that
   * is an IndexError.
   */
  method ToListOfDict<K, V>(inDict: map<K, seq<V>>) returns (r: Result<seq<map<K, V>>, MiscError>)
    ensures r == Err(TypeError) <==> |inDict| >= 2
    ensures |inDict| < 2 ==> (r.Ok? <==> forall k :: k in inDict ==> |inDict[k]| >= |inDict|)
    ensures r.Err? ==> r == Err(TypeError) || r == Err(IndexError)
    ensures r.Ok? ==> |r.value| == |inDict| && forall i :: 0 <= i < |r.value| ==>
      (forall k :: k in inDict ==> i < |inDict[k]|) && r.value[i] == Row(inDict, i)
  {
    var n := |inDict|;
    if n - 1 > 0 {
      return Err(TypeError);
    }
    var out: seq<map<K, V>> := [];
    for i := 0 to n
      invariant |out| == i
      invariant forall q :: 0 <= q < i ==> (forall k :: k in inDict ==> q < |inDict[k]|) && out[q] == Row(inDict, q)
      invariant forall k :: k in inDict ==> |inDict[k]| >= i
    {
      if exists k :: k in inDict && |inDict[k]| <= i {
        return Err(IndexError);
      }
      out := out + [Row(inDict, i)];
    }
    return Ok(out);
  }

  /** A single key whose list has three values gives a list of one dict, not three. */
  lemma ToListOfDictOneKey(a: int, b: int, c: int)
    ensures var inDict := map["x" := [a, b, c]];
      |inDict| == 1 && Row(inDict, 0) == map["x" := a]
  {
    var inDict := map["x" := [a, b, c]];
    assert inDict.Keys == {"x"};
  }
}
