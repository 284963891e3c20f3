/**
 * The optimizer hooks (nncore/engine/hooks/optimizer.py): what
 * `OptimizerHook.after_train_iter` and `DistOptimizerHook.after_train_iter`
 * do after each training iteration, observed as the ordered list of
 * calls they make on the optimizer, the loss, the process group and the
 * gradient clipper; and the gradient filtering and type bucketing of the
 * allreduce helpers.
 */
module OptimizerHooks {
  import opened Wrappers
  import opened Schedule
  import Engine

  /** A gradient tensor: an identity and its `tensor.type()`. */
  datatype Tensor = Tensor(id: nat, ty: string)

  /** A model parameter: `requires_grad` and its `grad`, None when no gradient was computed. */
  datatype Param = Param(id: nat, requiresGrad: bool, grad: Option<Tensor>)

  /** One call made by a hook, in the order made. */
  datatype OptCall =
    | ZeroGrad
    | Backward(key: string, value: real)
    /** `dist.all_reduce(tensor.div_(world_size))` on one tensor. */
    | ReduceOne(tensor: Tensor, worldSize: nat)
    /** Flatten a bucket, `dist.all_reduce`, divide by the world size and copy back. */
    | ReduceBucket(bucket: seq<Tensor>, worldSize: nat)
    | ClipGrads(params: seq<Param>, cfg: ClipConfig)
    | Step

  /** `engine.losses[loss]` with no such key: a KeyError. */
  datatype HookError = MissingLoss(key: string)

  /** The calls a hook made, and the exception it raised, if any. */
  datatype HookRun = HookRun(calls: seq<OptCall>, err: Option<HookError>)

  predicate IsReduce(c: OptCall)
  {
    c.ReduceOne? || c.ReduceBucket?
  }

  /** `cur_stage.get('loss', 'loss')`. */
  function LossKey(cur: Stage): string
  {
    if cur.loss.Some? then cur.loss.value else "loss"
  }

  /** `filter(lambda p: p.requires_grad, params)`. */
  function RequiringGrad(params: seq<Param>): (r: seq<Param>)
    ensures forall p :: p in r <==> p in params && p.requiresGrad
  {
    if params == [] then []
    else (if params[0].requiresGrad then [params[0]] else []) + RequiringGrad(params[1..])
  }

  /** The calls of the optional clipping step. */
  function ClipCalls(cur: Stage, params: seq<Param>): seq<OptCall>
  {
    if cur.gradClip.Some? then [ClipGrads(RequiringGrad(params), cur.gradClip.value)] else []
  }

  /** The calls of `OptimizerHook.after_train_iter` once the loss `v` was found. */
  function PlainCalls(cur: Stage, v: real, params: seq<Param>): seq<OptCall>
  {
    [ZeroGrad, Backward(LossKey(cur), v)] + ClipCalls(cur, params) + [Step]
  }

  /** The calls of `DistOptimizerHook.after_train_iter`: the allreduce calls `reduce` go right after `backward`. */
  function DistCalls(cur: Stage, v: real, params: seq<Param>, reduce: seq<OptCall>): seq<OptCall>
  {
    [ZeroGrad, Backward(LossKey(cur), v)] + reduce + ClipCalls(cur, params) + [Step]
  }

  /** How often `c` occurs in `calls`. */
  function Count(calls: seq<OptCall>, c: OptCall): nat
  {
    if calls == [] then 0 else (if calls[0] == c then 1 else 0) + Count(calls[1..], c)
  }

  lemma {:induction false} CountConcat(a: seq<OptCall>, b: seq<OptCall>, c: OptCall)
    ensures Count(a + b, c) == Count(a, c) + Count(b, c)
  {
    if a == [] {
      assert a + b == b;
    } else {
      assert (a + b)[1..] == a[1..] + b;
      CountConcat(a[1..], b, c);
    }
  }

  /** The calls other than allreduce calls, in their order. */
  function NonReduce(calls: seq<OptCall>): seq<OptCall>
  {
    if calls == [] then [] else (if IsReduce(calls[0]) then [] else [calls[0]]) + NonReduce(calls[1..])
  }

  lemma {:induction false} NonReduceConcat(a: seq<OptCall>, b: seq<OptCall>)
    ensures NonReduce(a + b) == NonReduce(a) + NonReduce(b)
  {
    if a == [] {
      assert a + b == b;
    } else {
      assert (a + b)[1..] == a[1..] + b;
      NonReduceConcat(a[1..], b);
    }
  }

  lemma {:induction false} NonReduceKeeps(a: seq<OptCall>)
    requires forall i :: 0 <= i < |a| ==> !IsReduce(a[i])
    ensures NonReduce(a) == a
  {
    if a != [] {
      NonReduceKeeps(a[1..]);
    }
  }

  lemma {:induction false} NonReduceDrops(a: seq<OptCall>)
    requires forall i :: 0 <= i < |a| ==> IsReduce(a[i])
    ensures NonReduce(a) == []
  {
    if a != [] {
      NonReduceDrops(a[1..]);
    }
  }

  /**
   * `OptimizerHook.after_train_iter`: `zero_grad`, `backward` on the loss
   * the stage selects, clipping when the stage sets `grad_clip`, `step`.
   * A loss key missing from `losses` raises after `zero_grad`.
   */
  method AfterTrainIter(cur: Stage, losses: Engine.Output, params: seq<Param>) returns (run: HookRun)
    ensures Engine.Get(losses, LossKey(cur)).None? ==> run == HookRun([ZeroGrad], Some(MissingLoss(LossKey(cur))))
    ensures Engine.Get(losses, LossKey(cur)).Some? ==>
      run == HookRun(PlainCalls(cur, Engine.Get(losses, LossKey(cur)).value, params), None)
  {
    var calls := [ZeroGrad];
    var key := if cur.loss.Some? then cur.loss.value else "loss";
    var loss := Engine.Get(losses, key);
    if loss.None? {
      return HookRun(calls, Some(MissingLoss(key)));
    }
    calls := calls + [Backward(key, loss.value)];
    if cur.gradClip.Some? {
      calls := calls + [ClipGrads(RequiringGrad(params), cur.gradClip.value)];
    }
    calls := calls + [Step];
    run := HookRun(calls, None);
  }

  /**
   * The order `OptimizerHook` promises: `zero_grad` first, `step` last,
   * `backward` on the selected loss second, each exactly once; clipping
   * once exactly when `grad_clip` is set, between `backward` and `step`,
   * over the parameters that require gradients.
   */
  lemma PlainCallsOrder(cur: Stage, v: real, params: seq<Param>)
    ensures var calls := PlainCalls(cur, v, params);
      && calls[0] == ZeroGrad && calls[1] == Backward(LossKey(cur), v) && calls[|calls| - 1] == Step
      && Count(calls, ZeroGrad) == 1 && Count(calls, Step) == 1 && Count(calls, Backward(LossKey(cur), v)) == 1
      && (|calls| == 4 <==> cur.gradClip.Some?)
      && (cur.gradClip.Some? ==> calls[2] == ClipGrads(RequiringGrad(params), cur.gradClip.value))
      && (cur.gradClip.None? ==> |calls| == 3)
  {
    var head := [ZeroGrad, Backward(LossKey(cur), v)];
    var clip := ClipCalls(cur, params);
    CountConcat(head + clip, [Step], ZeroGrad);
    CountConcat(head, clip, ZeroGrad);
    CountConcat(head + clip, [Step], Step);
    CountConcat(head, clip, Step);
    CountConcat(head + clip, [Step], Backward(LossKey(cur), v));
    CountConcat(head, clip, Backward(LossKey(cur), v));
    assert head[1..][1..] == [];
  }

  /**
   * `DistOptimizerHook` makes the calls of `OptimizerHook` and, in
   * between `backward` and whatever follows it, the allreduce calls and
   * nothing else.
   */
  lemma DistCallsOrder(cur: Stage, v: real, params: seq<Param>, reduce: seq<OptCall>)
    requires forall i :: 0 <= i < |reduce| ==> IsReduce(reduce[i])
    ensures var calls := DistCalls(cur, v, params, reduce);
      && NonReduce(calls) == PlainCalls(cur, v, params)
      && calls[..2] == [ZeroGrad, Backward(LossKey(cur), v)]
      && calls[2..2 + |reduce|] == reduce
      && calls[2 + |reduce|..] == ClipCalls(cur, params) + [Step]
  {
    DistCallsLayout(cur, v, params, reduce);
    DistCallsNonReduce(cur, v, params, reduce);
  }

  lemma DistCallsLayout(cur: Stage, v: real, params: seq<Param>, reduce: seq<OptCall>)
    ensures var calls := DistCalls(cur, v, params, reduce);
      && calls[..2] == [ZeroGrad, Backward(LossKey(cur), v)]
      && calls[2..2 + |reduce|] == reduce
      && calls[2 + |reduce|..] == ClipCalls(cur, params) + [Step]
  {
    var head := [ZeroGrad, Backward(LossKey(cur), v)];
    var tail := ClipCalls(cur, params) + [Step];
    var calls := DistCalls(cur, v, params, reduce);
    assert calls == head + reduce + tail;
  }

  lemma DistCallsNonReduce(cur: Stage, v: real, params: seq<Param>, reduce: seq<OptCall>)
    requires forall i :: 0 <= i < |reduce| ==> IsReduce(reduce[i])
    ensures NonReduce(DistCalls(cur, v, params, reduce)) == PlainCalls(cur, v, params)
  {
    var head := [ZeroGrad, Backward(LossKey(cur), v)];
    var tail := ClipCalls(cur, params) + [Step];
    assert DistCalls(cur, v, params, reduce) == head + reduce + tail;
    NonReduceConcat(head + reduce, tail);
    NonReduceConcat(head, reduce);
    NonReduceKeeps(head);
    NonReduceDrops(reduce);
    assert forall i :: 0 <= i < |tail| ==> !IsReduce(tail[i]);
    NonReduceKeeps(tail);
    assert head + [] + tail == PlainCalls(cur, v, params);
  }

  // ------------------------------------------------------------ allreduce

  /** `[param.grad.data for param in params if param.requires_grad and param.grad is not None]`. */
  function GradsToReduce(params: seq<Param>): (r: seq<Tensor>)
    ensures |r| <= |params|
  {
    if params == [] then []
    else
      (if params[0].requiresGrad && params[0].grad.Some? then [params[0].grad.value] else []) +
        GradsToReduce(params[1..])
  }

  /**
   * Only gradients of parameters that require one and have one are
   * reduced, and every such gradient is. `GradsToReduceInOrder` and
   * `GradsToReduceConcat` give the order.
   */
  lemma {:induction false} GradsToReduceSpec(params: seq<Param>)
    ensures forall t :: t in GradsToReduce(params) <==>
      exists i :: 0 <= i < |params| && params[i].requiresGrad && params[i].grad == Some(t)
  {
    if params != [] {
      GradsToReduceSpec(params[1..]);
      var rest := GradsToReduce(params[1..]);
      forall t | t in GradsToReduce(params)
        ensures exists i :: 0 <= i < |params| && params[i].requiresGrad && params[i].grad == Some(t)
      {
        if t !in rest {
          assert params[0].requiresGrad && params[0].grad == Some(t);
        } else {
          var j :| 0 <= j < |params[1..]| && params[1..][j].requiresGrad && params[1..][j].grad == Some(t);
          assert params[j + 1] == params[1..][j];
        }
      }
      forall t | exists i :: 0 <= i < |params| && params[i].requiresGrad && params[i].grad == Some(t)
        ensures t in GradsToReduce(params)
      {
        var i :| 0 <= i < |params| && params[i].requiresGrad && params[i].grad == Some(t);
        if i > 0 {
          assert params[1..][i - 1] == params[i];
        }
      }
    }
  }

  /** When every parameter qualifies, every gradient is reduced, in parameter order. */
  lemma {:induction false} GradsToReduceInOrder(params: seq<Param>)
    requires forall i :: 0 <= i < |params| ==> params[i].requiresGrad && params[i].grad.Some?
    ensures GradsToReduce(params) == seq(|params|, i requires 0 <= i < |params| => params[i].grad.value)
  {
    if params != [] {
      GradsToReduceInOrder(params[1..]);
    }
  }

  /**
   * The comprehension keeps parameter order: the gradients of `a + b` are
   * those of `a` followed by those of `b`, so a parameter's gradient comes
   * before every gradient of a later parameter.
   */
  lemma {:induction false} GradsToReduceConcat(a: seq<Param>, b: seq<Param>)
    ensures GradsToReduce(a + b) == GradsToReduce(a) + GradsToReduce(b)
  {
    if a != [] {
      assert (a + b)[0] == a[0];
      assert (a + b)[1..] == a[1..] + b;
      GradsToReduceConcat(a[1..], b);
    } else {
      assert a + b == b;
    }
  }

  /** The distinct tensor types of `ts`, in order of first appearance (the keys of `buckets`). */
  function TypesOf(ts: seq<Tensor>): seq<string>
  {
    if ts == [] then []
    else
      var p := TypesOf(ts[..|ts| - 1]);
      if ts[|ts| - 1].ty in p then p else p + [ts[|ts| - 1].ty]
  }

  /** The tensors of type `tp`, in input order. */
  function OfType(ts: seq<Tensor>, tp: string): seq<Tensor>
  {
    if ts == [] then []
    else OfType(ts[..|ts| - 1], tp) + (if ts[|ts| - 1].ty == tp then [ts[|ts| - 1]] else [])
  }

  /** The grouping `buckets.values()` holds: one bucket per type, by first appearance. */
  function GroupByType(ts: seq<Tensor>): (r: seq<seq<Tensor>>)
    ensures |r| == |TypesOf(ts)|
  {
    var types := TypesOf(ts);
    seq(|types|, i requires 0 <= i < |types| => OfType(ts, types[i]))
  }

  /**
   * The `bucket_size_mb <= 0` branch of `_allreduce_coalesced`: an ordered
   * dict from type to the list of tensors of that type, in insertion
   * order. The ordered dict is its key order `types` and a map.
   */
  method BucketByType(tensors: seq<Tensor>) returns (buckets: seq<seq<Tensor>>)
    ensures buckets == GroupByType(tensors)
  {
    var types: seq<string> := [];
    var groups: map<string, seq<Tensor>> := map[];
    for k := 0 to |tensors|
      invariant types == TypesOf(tensors[..k])
      invariant forall tp :: tp in groups <==> tp in types
      invariant forall tp :: tp in groups ==> groups[tp] == OfType(tensors[..k], tp)
    {
      assert tensors[..k + 1][..k] == tensors[..k];
      var tp := tensors[k].ty;
      if tp !in groups {
        groups := groups[tp := []];
        types := types + [tp];
        OfTypeAbsent(tensors[..k], tp);
      }
      groups := groups[tp := groups[tp] + [tensors[k]]];
    }
    assert tensors[..|tensors|] == tensors;
    buckets := seq(|types|, i requires 0 <= i < |types| => groups[types[i]]);
  }

  lemma {:induction false} OfTypeAbsent(ts: seq<Tensor>, tp: string)
    requires tp !in TypesOf(ts)
    ensures OfType(ts, tp) == []
  {
    if ts != [] {
      OfTypeAbsent(ts[..|ts| - 1], tp);
    }
  }

  lemma {:induction false} TypesOfSpec(ts: seq<Tensor>)
    ensures forall tp :: tp in TypesOf(ts) <==> exists k :: 0 <= k < |ts| && ts[k].ty == tp
    ensures forall i, j :: 0 <= i < j < |TypesOf(ts)| ==> TypesOf(ts)[i] != TypesOf(ts)[j]
  {
    if ts != [] {
      var init := ts[..|ts| - 1];
      TypesOfSpec(init);
      forall tp | tp in TypesOf(ts) ensures exists k :: 0 <= k < |ts| && ts[k].ty == tp {
        if tp in TypesOf(init) {
          var k :| 0 <= k < |init| && init[k].ty == tp;
          assert ts[k] == init[k];
        } else {
          assert ts[|ts| - 1].ty == tp;
        }
      }
      forall tp | exists k :: 0 <= k < |ts| && ts[k].ty == tp ensures tp in TypesOf(ts) {
        var k :| 0 <= k < |ts| && ts[k].ty == tp;
        if k < |ts| - 1 {
          assert init[k] == ts[k];
        }
      }
    }
  }

  /** Position of the first tensor of type `tp`. */
  function FirstOf(ts: seq<Tensor>, tp: string): (i: nat)
    requires exists k :: 0 <= k < |ts| && ts[k].ty == tp
    ensures i < |ts| && ts[i].ty == tp && forall k :: 0 <= k < i ==> ts[k].ty != tp
  {
    if ts[0].ty == tp then 0
    else
      assert exists k :: 0 <= k < |ts[1..]| && ts[1..][k].ty == tp by {
        var k :| 0 <= k < |ts| && ts[k].ty == tp;
        assert ts[1..][k - 1] == ts[k];
      }
      1 + FirstOf(ts[1..], tp)
  }

  /** The buckets come in order of the first appearance of their type. */
  lemma {:induction false} TypesOfFirstOrder(ts: seq<Tensor>, i: nat, j: nat)
    requires i < j < |TypesOf(ts)|
    ensures (exists k :: 0 <= k < |ts| && ts[k].ty == TypesOf(ts)[i])
    ensures (exists k :: 0 <= k < |ts| && ts[k].ty == TypesOf(ts)[j])
    ensures FirstOf(ts, TypesOf(ts)[i]) < FirstOf(ts, TypesOf(ts)[j])
  {
    TypesOfSpec(ts);
    var init := ts[..|ts| - 1];
    var last := ts[|ts| - 1];
    TypesOfSpec(init);
    var a, b := TypesOf(ts)[i], TypesOf(ts)[j];
    assert a in TypesOf(ts) && b in TypesOf(ts);
    if j < |TypesOf(init)| {
      assert TypesOf(init)[i] == a && TypesOf(init)[j] == b;
      TypesOfFirstOrder(init, i, j);
      FirstOfPrefix(ts, init, a);
      FirstOfPrefix(ts, init, b);
    } else {
      assert b == last.ty && b !in TypesOf(init);
      assert TypesOf(init)[i] == a;
      FirstOfPrefix(ts, init, a);
      forall k | 0 <= k < |init| ensures init[k].ty != b {
      }
      assert FirstOf(ts, b) == |ts| - 1 by {
        forall k | 0 <= k < |ts| - 1 ensures ts[k].ty != b {
          assert ts[k] == init[k];
        }
        FirstOfAt(ts, |ts| - 1, b);
      }
    }
  }

  lemma FirstOfAt(ts: seq<Tensor>, k: nat, tp: string)
    requires k < |ts| && ts[k].ty == tp && forall q :: 0 <= q < k ==> ts[q].ty != tp
    ensures (exists q :: 0 <= q < |ts| && ts[q].ty == tp) && FirstOf(ts, tp) == k
  {
    var i := FirstOf(ts, tp);
  }

  /** A type present in a prefix first appears at the same place in the whole. */
  lemma FirstOfPrefix(ts: seq<Tensor>, init: seq<Tensor>, tp: string)
    requires |init| <= |ts| && init == ts[..|init|] && exists k :: 0 <= k < |init| && init[k].ty == tp
    ensures (exists k :: 0 <= k < |ts| && ts[k].ty == tp) && FirstOf(ts, tp) == FirstOf(init, tp)
  {
    var i := FirstOf(init, tp);
    assert ts[i] == init[i];
    forall q | 0 <= q < i ensures ts[q].ty != tp {
      assert ts[q] == init[q];
    }
    FirstOfAt(ts, i, tp);
  }

  /**
   * Type bucketing is a partition: bucket `i` holds exactly the tensors
   * of the `i`-th type, in input order, so every tensor lands in the one
   * bucket for its type and in no other.
   */
  lemma GroupByTypePartition(ts: seq<Tensor>, k: nat)
    requires k < |ts|
    ensures var types := TypesOf(ts);
      exists j :: 0 <= j < |types| && types[j] == ts[k].ty && ts[k] in GroupByType(ts)[j]
    ensures forall j :: 0 <= j < |TypesOf(ts)| && ts[k] in GroupByType(ts)[j] ==> TypesOf(ts)[j] == ts[k].ty
  {
    var types := TypesOf(ts);
    TypesOfSpec(ts);
    assert ts[k].ty in types;
    var j :| 0 <= j < |types| && types[j] == ts[k].ty;
    OfTypeHas(ts, k);
    assert GroupByType(ts)[j] == OfType(ts, types[j]);
    forall j' | 0 <= j' < |types| && ts[k] in GroupByType(ts)[j'] ensures types[j'] == ts[k].ty {
      OfTypeOnly(ts, types[j']);
    }
  }

  lemma {:induction false} OfTypeHas(ts: seq<Tensor>, k: nat)
    requires k < |ts|
    ensures ts[k] in OfType(ts, ts[k].ty)
  {
    if k < |ts| - 1 {
      assert ts[..|ts| - 1][k] == ts[k];
      OfTypeHas(ts[..|ts| - 1], k);
    }
  }

  lemma {:induction false} OfTypeOnly(ts: seq<Tensor>, tp: string)
    ensures forall t :: t in OfType(ts, tp) ==> t.ty == tp && t in ts
  {
    if ts != [] {
      OfTypeOnly(ts[..|ts| - 1], tp);
      forall t | t in OfType(ts[..|ts| - 1], tp) ensures t in ts {
        var q :| 0 <= q < |ts| - 1 && ts[..|ts| - 1][q] == t;
        assert ts[q] == t;
      }
    }
  }

  /**
   * `_allreduce_coalesced(tensors, world_size, bucket_size_mb)`: with a
   * positive bucket size the buckets come from `_take_tensors`, handed in
   * as `takeTensors` and given the size in bytes; otherwise from
   * `BucketByType`. Then one bucket reduction per bucket, in order.
   */
  method AllreduceCoalesced(tensors: seq<Tensor>, worldSize: nat, bucketSizeMb: int,
                            takeTensors: (seq<Tensor>, int) -> seq<seq<Tensor>>) returns (calls: seq<OptCall>)
    ensures var buckets := if bucketSizeMb > 0 then takeTensors(tensors, bucketSizeMb * 1024 * 1024)
                           else GroupByType(tensors);
      |calls| == |buckets| && forall i :: 0 <= i < |calls| ==> calls[i] == ReduceBucket(buckets[i], worldSize)
  {
    var buckets;
    if bucketSizeMb > 0 {
      var bucketSizeBytes := bucketSizeMb * 1024 * 1024;
      buckets := takeTensors(tensors, bucketSizeBytes);
    } else {
      buckets := BucketByType(tensors);
    }
    calls := [];
    for i := 0 to |buckets|
      invariant |calls| == i && forall q :: 0 <= q < i ==> calls[q] == ReduceBucket(buckets[q], worldSize)
    {
      calls := calls + [ReduceBucket(buckets[i], worldSize)];
    }
  }

  /**
   * `_allreduce_grads(params, coalesce, bucket_size_mb)`: the qualifying
   * gradients, coalesced when `coalesce` is set, otherwise each divided
   * and reduced on its own, in order.
   */
  method AllreduceGrads(params: seq<Param>, coalesce: bool, bucketSizeMb: int, worldSize: nat,
                        takeTensors: (seq<Tensor>, int) -> seq<seq<Tensor>>) returns (calls: seq<OptCall>)
    ensures calls == ReduceCalls(params, coalesce, bucketSizeMb, worldSize, takeTensors)
  {
    var grads := GradsToReduce(params);
    if coalesce {
      calls := AllreduceCoalesced(grads, worldSize, bucketSizeMb, takeTensors);
    } else {
      calls := [];
      for i := 0 to |grads|
        invariant |calls| == i && forall q :: 0 <= q < i ==> calls[q] == ReduceOne(grads[q], worldSize)
      {
        calls := calls + [ReduceOne(grads[i], worldSize)];
      }
    }
  }

  /** The allreduce calls `_allreduce_grads` makes, stated without its loops. */
  function ReduceCalls(params: seq<Param>, coalesce: bool, bucketSizeMb: int, worldSize: nat,
                       takeTensors: (seq<Tensor>, int) -> seq<seq<Tensor>>): seq<OptCall>
  {
    var grads := GradsToReduce(params);
    if !coalesce then seq(|grads|, i requires 0 <= i < |grads| => ReduceOne(grads[i], worldSize))
    else
      var buckets := if bucketSizeMb > 0 then takeTensors(grads, bucketSizeMb * 1024 * 1024) else GroupByType(grads);
      seq(|buckets|, i requires 0 <= i < |buckets| => ReduceBucket(buckets[i], worldSize))
  }

  /**
   * Without `coalesce`, one reduction per qualifying gradient, in order;
   * with it, one per bucket, the buckets by type when `bucket_size_mb <= 0`.
   * Every call is an allreduce call.
   */
  lemma ReduceCallsSpec(params: seq<Param>, coalesce: bool, bucketSizeMb: int, worldSize: nat,
                        takeTensors: (seq<Tensor>, int) -> seq<seq<Tensor>>)
    ensures var calls := ReduceCalls(params, coalesce, bucketSizeMb, worldSize, takeTensors);
      && (forall i :: 0 <= i < |calls| ==> IsReduce(calls[i]))
      && (!coalesce ==>
            |calls| == |GradsToReduce(params)| &&
            forall i :: 0 <= i < |calls| ==> calls[i] == ReduceOne(GradsToReduce(params)[i], worldSize))
      && (coalesce && bucketSizeMb <= 0 ==>
            |calls| == |TypesOf(GradsToReduce(params))| &&
            forall i :: 0 <= i < |calls| ==> calls[i] == ReduceBucket(GroupByType(GradsToReduce(params))[i], worldSize))
  {
  }

  /** `DistOptimizerHook(coalesce=True, bucket_size_mb=-1)`. */
  class DistOptimizerHook {
    const coalesce: bool
    const bucketSizeMb: int

    constructor (coalesce: bool, bucketSizeMb: int)
      ensures this.coalesce == coalesce && this.bucketSizeMb == bucketSizeMb
    {
      this.coalesce := coalesce;
      this.bucketSizeMb := bucketSizeMb;
    }

    /**
     * `DistOptimizerHook.after_train_iter`: as `OptimizerHook`, with the
     * gradient allreduce between `backward` and clipping. The world size
     * and `_take_tensors` come from the process group and torch.
     */
    method AfterTrainIter(cur: Stage, losses: Engine.Output, params: seq<Param>, worldSize: nat,
                          takeTensors: (seq<Tensor>, int) -> seq<seq<Tensor>>) returns (run: HookRun)
      ensures Engine.Get(losses, LossKey(cur)).None? ==> run == HookRun([ZeroGrad], Some(MissingLoss(LossKey(cur))))
      ensures Engine.Get(losses, LossKey(cur)).Some? ==>
        var reduce := ReduceCalls(params, coalesce, bucketSizeMb, worldSize, takeTensors);
        run == HookRun(DistCalls(cur, Engine.Get(losses, LossKey(cur)).value, params, reduce), None)
    {
      var calls := [ZeroGrad];
      var key := if cur.loss.Some? then cur.loss.value else "loss";
      var loss := Engine.Get(losses, key);
      if loss.None? {
        return HookRun(calls, Some(MissingLoss(key)));
      }
      calls := calls + [Backward(key, loss.value)];
      assert calls == [ZeroGrad, Backward(LossKey(cur), loss.value)];
      var reduce := AllreduceGrads(params, coalesce, bucketSizeMb, worldSize, takeTensors);
      calls := calls + reduce;
      if cur.gradClip.Some? {
        calls := calls + [ClipGrads(RequiringGrad(params), cur.gradClip.value)];
      } else {
        assert calls + [] == calls;
      }
      calls := calls + [Step];
      run := HookRun(calls, None);
    }
  }
}
