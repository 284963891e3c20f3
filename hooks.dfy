/**
 * The engine's hook registry (nncore/engine/engine.py): an ordered
 * collection of uniquely named hooks, the OrderedDict operations the
 * engine applies to it, and in-order dispatch of a lifecycle event.
 */
module Hooks {

  /** The callbacks a hook exposes; `OnRegister` is `on_register`. */
  datatype Event =
    | OnRegister
    | BeforeLaunch | AfterLaunch
    | BeforeStage | AfterStage
    | BeforeTrainEpoch | AfterTrainEpoch
    | BeforeValEpoch | AfterValEpoch
    | BeforeTrainIter | AfterTrainIter
    | BeforeValIter | AfterValIter

  /** A hook; its callbacks are observed only through the calls they receive. */
  datatype Hook = Hook(name: string)

  /** The engine counters a callback can read when it runs. */
  datatype Clock = Clock(stage: nat, epoch: nat, iter: nat)

  /** One callback invocation: hook `hook` received `event` while the counters read `at`. */
  datatype Call = Call(hook: string, event: Event, at: Clock)

  /** `name in self._hooks`. */
  predicate Registered(hooks: seq<Hook>, name: string)
  {
    exists i :: 0 <= i < |hooks| && hooks[i].name == name
  }

  /** The name of the hook at position `i`. */
  function NameAt(hooks: seq<Hook>, i: nat): string
    requires i < |hooks|
  {
    hooks[i].name
  }

  /** No name occurs twice (OrderedDict keys are unique). */
  predicate UniqueNames(hooks: seq<Hook>)
  {
    forall i, j :: 0 <= i < j < |hooks| ==> NameAt(hooks, i) != NameAt(hooks, j)
  }

  lemma UniqueAt(hooks: seq<Hook>, i: nat, j: nat)
    requires UniqueNames(hooks) && i < |hooks| && j < |hooks| && i != j
    ensures hooks[i].name != hooks[j].name
  {
    if i < j {
      assert NameAt(hooks, i) != NameAt(hooks, j);
    } else {
      assert NameAt(hooks, j) != NameAt(hooks, i);
    }
  }

  lemma UniqueTail(hooks: seq<Hook>)
    requires UniqueNames(hooks) && hooks != []
    ensures UniqueNames(hooks[1..])
  {
    var t := hooks[1..];
    forall i, j | 0 <= i < j < |t| ensures NameAt(t, i) != NameAt(t, j) {
      UniqueAt(hooks, i + 1, j + 1);
    }
  }

  /** Position of the first hook called `name` (`keys.index(name)`). */
  function IndexOf(hooks: seq<Hook>, name: string): (i: nat)
    requires Registered(hooks, name)
    ensures i < |hooks| && hooks[i].name == name
    ensures forall j :: 0 <= j < i ==> hooks[j].name != name
  {
    if hooks[0].name == name then 0
    else
      assert Registered(hooks[1..], name) by {
        var k :| 0 <= k < |hooks| && hooks[k].name == name;
        assert hooks[1..][k - 1].name == name;
      }
      1 + IndexOf(hooks[1..], name)
  }

  /** `OrderedDict.move_to_end(name)`: take the entry out and append it. */
  function MoveToEnd(hooks: seq<Hook>, name: string): (r: seq<Hook>)
    requires Registered(hooks, name)
    ensures |r| == |hooks| && r[|r| - 1].name == name
  {
    var i := IndexOf(hooks, name);
    assert hooks == hooks[..i] + [hooks[i]] + hooks[i + 1..];
    hooks[..i] + hooks[i + 1..] + [hooks[i]]
  }

  /** The hooks other than the one called `name`, in their order. */
  function Without(hooks: seq<Hook>, name: string): seq<Hook>
  {
    if hooks == [] then []
    else (if hooks[0].name == name then [] else [hooks[0]]) + Without(hooks[1..], name)
  }

  lemma {:induction false} WithoutAbsent(hooks: seq<Hook>, name: string)
    requires forall k :: 0 <= k < |hooks| ==> hooks[k].name != name
    ensures Without(hooks, name) == hooks
  {
    if hooks != [] {
      WithoutAbsent(hooks[1..], name);
    }
  }

  /** `IndexOf` is the first position holding `name`. */
  lemma IndexOfAt(hooks: seq<Hook>, k: nat, name: string)
    requires k < |hooks| && hooks[k].name == name
    requires forall j :: 0 <= j < k ==> hooks[j].name != name
    ensures Registered(hooks, name) && IndexOf(hooks, name) == k
  {
  }

  /**
   * One step of the reordering loop of `register_hook`: with the keys
   * `H[idx..i]` already moved behind `H[i..]`, moving key `H[i]` to the
   * end moves one more.
   */
  lemma MoveToEndStep(H: seq<Hook>, idx: nat, i: nat)
    requires UniqueNames(H) && idx <= i < |H|
    ensures var cur := H[..idx] + H[i..] + H[idx..i];
      Registered(cur, H[i].name) &&
      MoveToEnd(cur, H[i].name) == H[..idx] + H[i + 1..] + H[idx..i + 1]
  {
    var cur := H[..idx] + H[i..] + H[idx..i];
    assert cur[idx] == H[i];
    forall j | 0 <= j < idx ensures cur[j].name != H[i].name {
      assert cur[j] == H[j];
      UniqueAt(H, j, i);
    }
    IndexOfAt(cur, idx, H[i].name);
    assert cur[..idx] == H[..idx];
    assert cur[idx + 1..] == H[i + 1..] + H[idx..i];
    assert H[idx..i] + [H[i]] == H[idx..i + 1];
  }

  /**
   * The registry after the reordering loop of `register_hook` has moved
   * the keys `keys[idx..i]` to the end, one by one, in order.
   */
  function Moved(keys: seq<Hook>, idx: nat, i: nat): seq<Hook>
    requires UniqueNames(keys) && idx <= i < |keys|
    decreases i - idx, 1
  {
    if i == idx then keys
    else
      MoveToEndStep(keys, idx, i - 1);
      MovedIs(keys, idx, i - 1);
      MoveToEnd(Moved(keys, idx, i - 1), keys[i - 1].name)
  }

  /** After moving `keys[idx..i]`, they sit behind the keys not yet moved. */
  lemma {:induction false} MovedIs(keys: seq<Hook>, idx: nat, i: nat)
    requires UniqueNames(keys) && idx <= i < |keys|
    ensures Moved(keys, idx, i) == keys[..idx] + keys[i..] + keys[idx..i]
    decreases i - idx, 2
  {
    if i == idx {
      assert keys == keys[..idx] + keys[idx..] + keys[idx..idx];
    } else {
      var prev := Moved(keys, idx, i - 1);
      MovedIs(keys, idx, i - 1);
      MoveToEndStep(keys, idx, i - 1);
      assert Moved(keys, idx, i) == MoveToEnd(prev, keys[i - 1].name);
    }
  }

  /** The next key to move is still registered, and moving it is the next step of `Moved`. */
  lemma MovedNext(keys: seq<Hook>, idx: nat, i: nat)
    requires UniqueNames(keys) && idx <= i < |keys| - 1
    ensures Registered(Moved(keys, idx, i), keys[i].name)
    ensures MoveToEnd(Moved(keys, idx, i), keys[i].name) == Moved(keys, idx, i + 1)
  {
    MovedIs(keys, idx, i);
    MoveToEndStep(keys, idx, i);
  }

  /** Moving every key from `idx` up to the last brings the last key to position `idx`. */
  lemma MovedEnd(keys: seq<Hook>, idx: nat)
    requires UniqueNames(keys) && idx < |keys|
    ensures Moved(keys, idx, |keys| - 1) == keys[..idx] + [keys[|keys| - 1]] + keys[idx..|keys| - 1]
  {
    MovedIs(keys, idx, |keys| - 1);
    assert keys[|keys| - 1..] == [keys[|keys| - 1]];
  }

  /** Appending an unregistered hook keeps the names unique. */
  lemma AppendUnique(hooks: seq<Hook>, h: Hook)
    requires UniqueNames(hooks) && !Registered(hooks, h.name)
    ensures UniqueNames(hooks + [h])
  {
    var r := hooks + [h];
    forall p, q | 0 <= p < q < |r| ensures NameAt(r, p) != NameAt(r, q) {
      if q == |hooks| {
        assert r[p] == hooks[p];
      } else {
        assert r[p] == hooks[p] && r[q] == hooks[q];
        UniqueAt(hooks, p, q);
      }
    }
  }

  /** The registry with `h` placed at position `i`. */
  function InsertAt(hooks: seq<Hook>, i: nat, h: Hook): seq<Hook>
    requires i <= |hooks|
  {
    hooks[..i] + [h] + hooks[i..]
  }

  /**
   * Placing a new hook at the position of the registered hook `before`
   * puts it immediately in front of `before`, keeps every other hook in
   * its relative order, and keeps the names unique.
   */
  lemma InsertBeforeSpec(hooks: seq<Hook>, h: Hook, before: string)
    requires UniqueNames(hooks) && !Registered(hooks, h.name) && Registered(hooks, before)
    ensures var i := IndexOf(hooks, before);
      var r := InsertAt(hooks, i, h);
      |r| == |hooks| + 1 && r[i] == h && r[i + 1].name == before &&
      Without(r, h.name) == hooks && UniqueNames(r)
  {
    var i := IndexOf(hooks, before);
    var r := InsertAt(hooks, i, h);
    assert r[i] == h && r[i + 1] == hooks[i];
    WithoutInsert(hooks, i, h);
    InsertAtUnique(hooks, i, h);
  }

  lemma {:induction false} WithoutInsert(hooks: seq<Hook>, i: nat, h: Hook)
    requires i <= |hooks|
    requires forall k :: 0 <= k < |hooks| ==> hooks[k].name != h.name
    ensures Without(InsertAt(hooks, i, h), h.name) == hooks
  {
    var r := InsertAt(hooks, i, h);
    if i == 0 {
      assert r == [h] + hooks && r[1..] == hooks;
      WithoutAbsent(hooks, h.name);
    } else {
      assert r[0] == hooks[0] && r[1..] == InsertAt(hooks[1..], i - 1, h);
      WithoutInsert(hooks[1..], i - 1, h);
      assert hooks == [hooks[0]] + hooks[1..];
    }
  }

  lemma InsertAtUnique(hooks: seq<Hook>, i: nat, h: Hook)
    requires i <= |hooks| && UniqueNames(hooks) && !Registered(hooks, h.name)
    ensures UniqueNames(InsertAt(hooks, i, h))
  {
    var r := InsertAt(hooks, i, h);
    forall p, q | 0 <= p < q < |r| ensures NameAt(r, p) != NameAt(r, q) {
      if q < i {
        assert r[p] == hooks[p] && r[q] == hooks[q];
        UniqueAt(hooks, p, q);
      } else if q == i {
        assert r[p] == hooks[p] && r[q] == h;
      } else if p < i {
        assert r[p] == hooks[p] && r[q] == hooks[q - 1];
        UniqueAt(hooks, p, q - 1);
      } else if p == i {
        assert r[p] == h && r[q] == hooks[q - 1];
      } else {
        assert r[p] == hooks[p - 1] && r[q] == hooks[q - 1];
        UniqueAt(hooks, p - 1, q - 1);
      }
    }
  }

  /**
   * `_call_hook(event)`: one call of `event` per registered hook, in
   * registry order, all seeing the counters `at`.
   */
  function Dispatch(hooks: seq<Hook>, event: Event, at: Clock): (r: seq<Call>)
    ensures |r| == |hooks|
  {
    if hooks == [] then [] else [Call(hooks[0].name, event, at)] + Dispatch(hooks[1..], event, at)
  }

  /** The `i`-th call of a dispatch goes to the `i`-th hook. */
  lemma {:induction false} DispatchAt(hooks: seq<Hook>, event: Event, at: Clock, i: nat)
    requires i < |hooks|
    ensures Dispatch(hooks, event, at)[i] == Call(hooks[i].name, event, at)
  {
    if i > 0 {
      DispatchAt(hooks[1..], event, at, i - 1);
    }
  }

  /** How many calls of `event` hook `name` received in `trace`. */
  function Received(trace: seq<Call>, name: string, event: Event): nat
  {
    if trace == [] then 0
    else (if trace[0].hook == name && trace[0].event == event then 1 else 0) + Received(trace[1..], name, event)
  }

  lemma {:induction false} ReceivedConcat(a: seq<Call>, b: seq<Call>, name: string, event: Event)
    ensures Received(a + b, name, event) == Received(a, name, event) + Received(b, name, event)
  {
    if a == [] {
      assert a + b == b;
    } else {
      assert (a + b)[1..] == a[1..] + b;
      ReceivedConcat(a[1..], b, name, event);
    }
  }

  lemma {:induction false} DispatchMissing(hooks: seq<Hook>, event: Event, at: Clock, name: string, e: Event)
    requires (forall i :: 0 <= i < |hooks| ==> hooks[i].name != name) || e != event
    ensures Received(Dispatch(hooks, event, at), name, e) == 0
  {
    if hooks != [] {
      DispatchMissing(hooks[1..], event, at, name, e);
    }
  }

  /**
   * With unique names, a dispatch of `event` reaches each registered hook
   * exactly once, and delivers no other event.
   */
  lemma {:induction false} DispatchOnce(hooks: seq<Hook>, event: Event, at: Clock, k: nat, e: Event)
    requires UniqueNames(hooks) && k < |hooks|
    ensures Received(Dispatch(hooks, event, at), hooks[k].name, e) == if e == event then 1 else 0
  {
    var name := hooks[k].name;
    var head := [Call(hooks[0].name, event, at)];
    assert Dispatch(hooks, event, at) == head + Dispatch(hooks[1..], event, at);
    ReceivedConcat(head, Dispatch(hooks[1..], event, at), name, e);
    assert head[1..] == [];
    if k == 0 {
      forall i | 0 <= i < |hooks[1..]| ensures hooks[1..][i].name != name {
        UniqueAt(hooks, 0, i + 1);
      }
      DispatchMissing(hooks[1..], event, at, name, e);
    } else {
      UniqueAt(hooks, 0, k);
      UniqueTail(hooks);
      DispatchOnce(hooks[1..], event, at, k - 1, e);
    }
  }
}
