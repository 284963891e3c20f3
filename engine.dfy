/**
 * The training engine (nncore/engine/engine.py): stage, epoch and
 * iteration counters, the hook registry with insert-before placement,
 * in-order hook dispatch, the training and validation loops, and the
 * `run_stage` / `launch` drivers.
 *
 * Collaborators become values: the model is a function from (mode,
 * global epoch, batch index) to its output dict, each data loader is its
 * batch count, and every hook callback is observed only as a `Call`
 * appended to the ghost `trace`. The engine's writes into its metric
 * buffer are an append-only `log` of (key, value) pairs.
 */
module Engine {
  import opened Wrappers
  import opened Schedule
  import opened Hooks

  datatype Mode = Train | Val

  /** A dict from string keys to scalars, in insertion order. */
  type Output = seq<(string, real)>

  /** `model(data, return_loss=True)` for batch `b` of the `mode` loader during global epoch `epoch`. */
  type Model = (Mode, nat, nat) -> Output

  /** What `register_hook` may be handed: a Hook, a config dict (already built), or anything else. */
  datatype HookArg = HookObject(hook: Hook) | HookConfig(built: Hook) | NotAHook

  /** The engine's optimizer: built from a config dict, or an object handed over as is. */
  datatype Optimizer = BuiltOptimizer(config: string) | GivenOptimizer(name: string)

  datatype EngineError =
    | HookTypeError
    | HookExists(name: string)
    | HookNotFound(name: string)
    | OptimizerTypeError
    | StageIndexError
    | MissingValLoader

  /** How a driver ended: normally, with its fuel spent, or with an exception. */
  datatype Outcome = Finished | OutOfFuel | Raised(error: EngineError)

  // ---------------------------------------------------------------- optimizer

  /**
   * The decision of `build_optimizer`: a dict is built, an object with
   * both `zero_grad` and `step` is used as is, anything else is a TypeError.
   */
  function ResolveOptimizer(arg: OptimizerArg): (r: Result<Optimizer, EngineError>)
    ensures r.Ok? <==> arg.OptimizerConfig? || (arg.hasZeroGrad && arg.hasStep)
    ensures r.Ok? && arg.OptimizerConfig? ==> r.value == BuiltOptimizer(arg.config)
    ensures r.Ok? && arg.OptimizerObject? ==> r.value == GivenOptimizer(arg.name)
    ensures r.Err? ==> r.error == OptimizerTypeError
  {
    match arg
    case OptimizerConfig(config) => Ok(BuiltOptimizer(config))
    case OptimizerObject(name, hasZeroGrad, hasStep) =>
      if hasZeroGrad && hasStep then Ok(GivenOptimizer(name)) else Err(OptimizerTypeError)
  }

  // ------------------------------------------------------------------- losses

  /** Python's `p in s` on strings. */
  predicate Contains(s: string, p: string)
    decreases |s|
  {
    if |s| < |p| then false else s[..|p|] == p || Contains(s[1..], p)
  }

  predicate IsLossKey(k: string)
  {
    Contains(k, "loss")
  }

  /** `d[k]`, or None when `k` is not a key. */
  function Get(d: Output, k: string): Option<real>
  {
    if d == [] then None else if d[0].0 == k then Some(d[0].1) else Get(d[1..], k)
  }

  predicate DistinctKeys(d: Output)
  {
    forall i, j :: 0 <= i < j < |d| ==> d[i].0 != d[j].0
  }

  /** `{k: v for k, v in output.items() if 'loss' in k}`. */
  function LossEntries(out: Output): Output
  {
    if out == [] then [] else (if IsLossKey(out[0].0) then [out[0]] else []) + LossEntries(out[1..])
  }

  /** `sum(d.values())`, starting from 0. */
  function SumValues(d: Output): real
  {
    if d == [] then 0.0 else d[0].1 + SumValues(d[1..])
  }

  /** `d[k] = v`: overwrite in place when `k` is a key, append otherwise. */
  function Upsert(d: Output, k: string, v: real): Output
  {
    if d == [] then [(k, v)]
    else if d[0].0 == k then [(k, v)] + d[1..]
    else [d[0]] + Upsert(d[1..], k, v)
  }

  /** `self.losses` after `train_iter` saw `out`. */
  function Losses(out: Output): (r: Output)
    ensures Get(r, "loss") == Some(SumValues(LossEntries(out)))
  {
    var l := LossEntries(out);
    UpsertGet(l, "loss", SumValues(l), "loss");
    Upsert(l, "loss", SumValues(l))
  }

  lemma {:induction false} LossEntriesGet(out: Output, k: string)
    ensures Get(LossEntries(out), k) == if IsLossKey(k) then Get(out, k) else None
  {
    if out != [] {
      LossEntriesGet(out[1..], k);
      var rest := LossEntries(out[1..]);
      if IsLossKey(out[0].0) {
        assert LossEntries(out) == [out[0]] + rest;
        assert ([out[0]] + rest)[1..] == rest;
      } else {
        assert LossEntries(out) == [] + rest;
        assert [] + rest == rest;
      }
    }
  }

  lemma {:induction false} LossEntriesDistinct(out: Output)
    requires DistinctKeys(out)
    ensures DistinctKeys(LossEntries(out))
    ensures forall i :: 0 <= i < |LossEntries(out)| ==> Get(out, LossEntries(out)[i].0).Some?
  {
    if out != [] {
      var rest := LossEntries(out[1..]);
      assert DistinctKeys(out[1..]) by {
        forall i, j | 0 <= i < j < |out[1..]| ensures out[1..][i].0 != out[1..][j].0 {
          assert out[1..][i] == out[i + 1] && out[1..][j] == out[j + 1];
        }
      }
      LossEntriesDistinct(out[1..]);
      forall i | 0 <= i < |rest| ensures rest[i].0 != out[0].0 {
        GetInRest(out, rest[i].0);
      }
      var head := if IsLossKey(out[0].0) then [out[0]] else [];
      var r := head + rest;
      forall i | 0 <= i < |r| ensures Get(out, r[i].0).Some? {
        if i >= |head| {
          assert r[i] == rest[i - |head|];
        }
      }
    }
  }

  /** A key found in the tail of a dict with distinct keys is not its first key. */
  lemma GetInRest(d: Output, k: string)
    requires DistinctKeys(d) && d != [] && Get(d[1..], k).Some?
    ensures k != d[0].0
  {
    var j := GetIndex(d[1..], k);
    assert d[j + 1] == d[1..][j];
  }

  lemma {:induction false} GetNone(d: Output, k: string)
    requires forall i :: 0 <= i < |d| ==> d[i].0 != k
    ensures Get(d, k) == None
  {
    if d != [] {
      GetNone(d[1..], k);
    }
  }

  /** Position of the first entry under `k`. */
  lemma {:induction false} GetIndex(d: Output, k: string) returns (j: nat)
    requires Get(d, k).Some?
    ensures j < |d| && d[j].0 == k && Get(d, k) == Some(d[j].1)
  {
    if d[0].0 == k {
      j := 0;
    } else {
      var j' := GetIndex(d[1..], k);
      j := j' + 1;
    }
  }

  lemma {:induction false} UpsertGet(d: Output, k: string, v: real, q: string)
    ensures Get(Upsert(d, k, v), q) == if q == k then Some(v) else Get(d, q)
  {
    if d != [] && d[0].0 != k {
      UpsertGet(d[1..], k, v, q);
    }
  }

  lemma {:induction false} UpsertDistinct(d: Output, k: string, v: real)
    requires DistinctKeys(d)
    ensures DistinctKeys(Upsert(d, k, v))
    ensures forall i :: 0 <= i < |Upsert(d, k, v)| ==> Upsert(d, k, v)[i].0 == k || Get(d, Upsert(d, k, v)[i].0).Some?
  {
    if d == [] {
    } else if d[0].0 == k {
      var r := [(k, v)] + d[1..];
      forall i | 0 <= i < |r| ensures r[i].0 == k || Get(d, r[i].0).Some? {
        if i > 0 {
          assert r[i] == d[i];
          GetHas(d, i);
        }
      }
    } else {
      var rest := Upsert(d[1..], k, v);
      assert DistinctKeys(d[1..]) by {
        forall i, j | 0 <= i < j < |d[1..]| ensures d[1..][i].0 != d[1..][j].0 {
          assert d[1..][i] == d[i + 1] && d[1..][j] == d[j + 1];
        }
      }
      UpsertDistinct(d[1..], k, v);
      var r := [d[0]] + rest;
      forall i | 0 <= i < |rest| ensures rest[i].0 != d[0].0 {
        if rest[i].0 != k {
          GetInRest(d, rest[i].0);
        }
      }
      forall i | 0 <= i < |r| ensures r[i].0 == k || Get(d, r[i].0).Some? {
        if i > 0 {
          assert r[i] == rest[i - 1];
        }
      }
    }
  }

  /** Every key of a dict can be looked up. */
  lemma {:induction false} GetHas(d: Output, i: nat)
    requires i < |d|
    ensures Get(d, d[i].0).Some?
  {
    if i > 0 && d[0].0 != d[i].0 {
      assert d[1..][i - 1] == d[i];
      GetHas(d[1..], i - 1);
    }
  }

  /**
   * `train_iter`'s losses: the output's entries whose key contains
   * "loss", each with its own value, plus an entry "loss" holding the sum
   * of those values; no other key, and no key twice. An output entry that
   * is itself called "loss" is counted in the sum and then overwritten.
   */
  lemma LossesSpec(out: Output)
    requires DistinctKeys(out)
    ensures Get(Losses(out), "loss") == Some(SumValues(LossEntries(out)))
    ensures forall k :: k != "loss" ==> Get(Losses(out), k) == if IsLossKey(k) then Get(out, k) else None
    ensures DistinctKeys(Losses(out))
  {
    var l := LossEntries(out);
    UpsertGet(l, "loss", SumValues(l), "loss");
    forall k | k != "loss"
      ensures Get(Losses(out), k) == if IsLossKey(k) then Get(out, k) else None
    {
      UpsertGet(l, "loss", SumValues(l), k);
      LossEntriesGet(out, k);
    }
    LossEntriesDistinct(out);
    UpsertDistinct(l, "loss", SumValues(l));
  }

  /** An output that already reports "loss" next to a component loss gets both summed. */
  lemma LossKeyIsSummed()
    ensures Losses([("loss", 1.0), ("cls_loss", 2.0), ("acc", 0.5)]) == [("loss", 3.0), ("cls_loss", 2.0)]
  {
    assert Contains("loss", "loss");
    assert Contains("ls_loss", "loss");
    assert Contains("s_loss", "loss");
    assert Contains("_loss", "loss");
    assert Contains("cls_loss", "loss");
    assert !Contains("acc", "loss");
    var out := [("loss", 1.0), ("cls_loss", 2.0), ("acc", 0.5)];
    assert LossEntries(out[2..]) == [];
    assert LossEntries(out[1..]) == [("cls_loss", 2.0)];
    assert LossEntries(out) == [("loss", 1.0), ("cls_loss", 2.0)];
  }

  // ------------------------------------------------------------ hook traces

  /** The calls of `n` training iterations starting with the counters `c`. */
  function TrainIterCalls(hooks: seq<Hook>, n: nat, c: Clock): seq<Call>
  {
    if n == 0 then []
    else
      var at := c.(iter := c.iter + n - 1);
      TrainIterCalls(hooks, n - 1, c) + Dispatch(hooks, BeforeTrainIter, at) + Dispatch(hooks, AfterTrainIter, at)
  }

  /** The calls of a training epoch of `n` batches starting with the counters `c`. */
  function TrainEpochCalls(hooks: seq<Hook>, n: nat, c: Clock): seq<Call>
  {
    Dispatch(hooks, BeforeTrainEpoch, c) + TrainIterCalls(hooks, n, c) +
      Dispatch(hooks, AfterTrainEpoch, c.(iter := c.iter + n))
  }

  /** The calls of `m` validation iterations; validation moves no counter. */
  function ValIterCalls(hooks: seq<Hook>, m: nat, c: Clock): seq<Call>
  {
    if m == 0 then []
    else ValIterCalls(hooks, m - 1, c) + Dispatch(hooks, BeforeValIter, c) + Dispatch(hooks, AfterValIter, c)
  }

  function ValEpochCalls(hooks: seq<Hook>, m: nat, c: Clock): seq<Call>
  {
    Dispatch(hooks, BeforeValEpoch, c) + ValIterCalls(hooks, m, c) + Dispatch(hooks, AfterValEpoch, c)
  }

  /** The buffer writes of `n` batches of one epoch: each output's pairs, in key order. */
  function EpochLog(model: Model, mode: Mode, epoch: nat, n: nat): Output
  {
    if n == 0 then [] else EpochLog(model, mode, epoch, n - 1) + model(mode, epoch, n - 1)
  }

  /** `run_stage` validates after the training epoch that ended at global epoch `e`. */
  predicate Validates(stages: seq<Stage>, s: nat, e: nat)
    requires s < |stages|
  {
    stages[s].valInterval > 0 && EpochInStage(stages, e) % stages[s].valInterval == 0
  }

  /** No validation after any epoch ending in (e0, e1]. */
  predicate NoValidation(stages: seq<Stage>, s: nat, e0: nat, e1: nat)
    requires s < |stages|
  {
    forall e: nat :: e0 < e <= e1 ==> !Validates(stages, s, e)
  }

  /** One pass of the `run_stage` loop body entered at global epoch `e` and iteration `it`. */
  function EpochCalls(stages: seq<Stage>, s: nat, hooks: seq<Hook>, n: nat, m: nat, e: nat, it: nat): seq<Call>
    requires s < |stages|
  {
    TrainEpochCalls(hooks, n, Clock(s, e, it)) +
      (if Validates(stages, s, e + 1) then ValEpochCalls(hooks, m, Clock(s, e + 1, it + n)) else [])
  }

  function EpochWrites(model: Model, stages: seq<Stage>, s: nat, n: nat, m: nat, e: nat): Output
    requires s < |stages|
  {
    EpochLog(model, Train, e, n) + (if Validates(stages, s, e + 1) then EpochLog(model, Val, e + 1, m) else [])
  }

  /** The calls of the `run_stage` loop from epoch `e0` (iteration `it0`) up to epoch `e`. */
  function StageLoopCalls(stages: seq<Stage>, s: nat, hooks: seq<Hook>, n: nat, m: nat, e0: nat, it0: nat, e: nat): seq<Call>
    requires s < |stages| && e0 <= e
    decreases e - e0
  {
    if e == e0 then []
    else StageLoopCalls(stages, s, hooks, n, m, e0, it0, e - 1) + EpochCalls(stages, s, hooks, n, m, e - 1, it0 + Times(n, e - 1 - e0))
  }

  function StageLoopLog(model: Model, stages: seq<Stage>, s: nat, n: nat, m: nat, e0: nat, e: nat): Output
    requires s < |stages| && e0 <= e
    decreases e - e0
  {
    if e == e0 then [] else StageLoopLog(model, stages, s, n, m, e0, e - 1) + EpochWrites(model, stages, s, n, m, e - 1)
  }

  /** The calls of a whole `run_stage` of stage `s` that leaves its loop at epoch `e1`. */
  function StageCalls(stages: seq<Stage>, s: nat, hooks: seq<Hook>, n: nat, m: nat, e0: nat, it0: nat, e1: nat): seq<Call>
    requires s < |stages| && e0 <= e1
  {
    Dispatch(hooks, BeforeStage, Clock(s, e0, it0)) + StageLoopCalls(stages, s, hooks, n, m, e0, it0, e1) +
      Dispatch(hooks, AfterStage, Clock(s, e1, it0 + Times(n, e1 - e0)))
  }

  /**
   * The calls of a `run_stage` loop entered at epoch `e0` (iteration `it0`)
   * whose pass ending at epoch `e` raised in its validation epoch: the
   * passes before it, then the training epoch of that pass, whose hooks
   * and writes stand when the exception leaves.
   */
  function RaisedLoopCalls(stages: seq<Stage>, s: nat, hooks: seq<Hook>, n: nat, m: nat, e0: nat, it0: nat, e: nat): seq<Call>
    requires s < |stages| && e0 < e
  {
    StageLoopCalls(stages, s, hooks, n, m, e0, it0, e - 1) + TrainEpochCalls(hooks, n, Clock(s, e - 1, it0 + Times(n, e - 1 - e0)))
  }

  function RaisedLoopLog(model: Model, stages: seq<Stage>, s: nat, n: nat, m: nat, e0: nat, e: nat): Output
    requires s < |stages| && e0 < e
  {
    StageLoopLog(model, stages, s, n, m, e0, e - 1) + EpochLog(model, Train, e - 1, n)
  }

  /**
   * The counters `e`, `it`, calls `t` and writes `l` of a `run_stage` loop
   * entered at epoch `e0` (iteration `it0`, calls `t0`, writes `l0`) after
   * its passes up to epoch `e`.
   */
  predicate LoopAt(model: Model, stages: seq<Stage>, s: nat, hooks: seq<Hook>, n: nat, m: nat,
                   e0: nat, it0: nat, t0: seq<Call>, l0: Output, e: nat, it: nat, t: seq<Call>, l: Output)
    requires s < |stages|
  {
    e0 <= e && it == it0 + Times(n, e - e0) &&
    t == t0 + StageLoopCalls(stages, s, hooks, n, m, e0, it0, e) && l == l0 + StageLoopLog(model, stages, s, n, m, e0, e)
  }

  /**
   * The state of a `run_stage` loop entered at epoch `e0` (iteration
   * `it0`, calls `t0`, writes `l0`) that raised in the validation epoch
   * of its pass ending at epoch `e`: that epoch validates, there is no
   * validation loader, the pass's training epoch has run and its
   * iterations are counted, and the calls and writes end with it.
   */
  predicate LoopRaised(model: Model, stages: seq<Stage>, s: nat, hooks: seq<Hook>, n: nat, m: nat, hasVal: bool,
                       e0: nat, it0: nat, t0: seq<Call>, l0: Output, e: nat, it: nat, t: seq<Call>, l: Output)
    requires s < |stages|
  {
    e0 < e && !hasVal && Validates(stages, s, e) && it == it0 + Times(n, e - e0) &&
    t == t0 + RaisedLoopCalls(stages, s, hooks, n, m, e0, it0, e) && l == l0 + RaisedLoopLog(model, stages, s, n, m, e0, e)
  }

  /** What a run from some point on produces: its calls, its buffer writes and the final counters. */
  datatype RunEnd = RunEnd(calls: seq<Call>, log: Output, epoch: nat, iter: nat)

  function Prepend(calls: seq<Call>, log: Output, r: Option<RunEnd>): Option<RunEnd>
  {
    if r.None? then None else Some(RunEnd(calls + r.value.calls, log + r.value.log, r.value.epoch, r.value.iter))
  }

  /**
   * The `launch` loop from stage `s`, epoch `e`, iteration `it`, when no
   * exception is raised: each remaining stage runs until its loop exits.
   * None when some stage loop never exits.
   */
  function LaunchRun(model: Model, stages: seq<Stage>, hooks: seq<Hook>, n: nat, m: nat, s: nat, e: nat, it: nat): Option<RunEnd>
    decreases |stages| - s
  {
    if s >= |stages| then Some(RunEnd([], [], e, it))
    else match LoopEnd(stages, s, e)
      case None => None
      case Some(e1) =>
        Prepend(StageCalls(stages, s, hooks, n, m, e, it, e1), StageLoopLog(model, stages, s, n, m, e, e1),
          LaunchRun(model, stages, hooks, n, m, s + 1, e1, it + Times(n, e1 - e)))
  }

  lemma PrependAssoc(a: seq<Call>, la: Output, b: seq<Call>, lb: Output, r: Option<RunEnd>)
    ensures Prepend(a, la, Prepend(b, lb, r)) == Prepend(a + b, la + lb, r)
  {
    if r.Some? {
      assert a + (b + r.value.calls) == (a + b) + r.value.calls;
      assert la + (lb + r.value.log) == (la + lb) + r.value.log;
    }
  }

  // ------------------------------------------------------ trace properties

  /** Each hook sees `n` `before_train_iter` and `n` `after_train_iter` calls in `n` iterations. */
  lemma {:induction false} TrainIterCallsCount(hooks: seq<Hook>, n: nat, c: Clock, k: nat, ev: Event)
    requires UniqueNames(hooks) && k < |hooks|
    ensures Received(TrainIterCalls(hooks, n, c), hooks[k].name, ev) ==
      if ev == BeforeTrainIter || ev == AfterTrainIter then n else 0
  {
    if n > 0 {
      var at := c.(iter := c.iter + n - 1);
      var a := TrainIterCalls(hooks, n - 1, c);
      var b := Dispatch(hooks, BeforeTrainIter, at);
      var d := Dispatch(hooks, AfterTrainIter, at);
      TrainIterCallsCount(hooks, n - 1, c, k, ev);
      ReceivedConcat(a + b, d, hooks[k].name, ev);
      ReceivedConcat(a, b, hooks[k].name, ev);
      DispatchOnce(hooks, BeforeTrainIter, at, k, ev);
      DispatchOnce(hooks, AfterTrainIter, at, k, ev);
    }
  }

  /**
   * In a training epoch of `n` batches each hook receives one
   * `before_train_epoch`, `n` `before_train_iter`, `n` `after_train_iter`
   * and one `after_train_epoch`, and nothing else.
   */
  lemma TrainEpochCallsCount(hooks: seq<Hook>, n: nat, c: Clock, k: nat, ev: Event)
    requires UniqueNames(hooks) && k < |hooks|
    ensures Received(TrainEpochCalls(hooks, n, c), hooks[k].name, ev) ==
      if ev == BeforeTrainIter || ev == AfterTrainIter then n
      else if ev == BeforeTrainEpoch || ev == AfterTrainEpoch then 1
      else 0
  {
    var name := hooks[k].name;
    var a := Dispatch(hooks, BeforeTrainEpoch, c);
    var b := TrainIterCalls(hooks, n, c);
    var d := Dispatch(hooks, AfterTrainEpoch, c.(iter := c.iter + n));
    ReceivedConcat(a + b, d, name, ev);
    ReceivedConcat(a, b, name, ev);
    assert Received(TrainEpochCalls(hooks, n, c), name, ev) == Received(a, name, ev) + Received(b, name, ev) + Received(d, name, ev);
    DispatchOnce(hooks, BeforeTrainEpoch, c, k, ev);
    DispatchOnce(hooks, AfterTrainEpoch, c.(iter := c.iter + n), k, ev);
    TrainIterCallsCount(hooks, n, c, k, ev);
  }

  /**
   * The iteration callbacks of an epoch see `iter` run through
   * `c.iter, …, c.iter + n - 1` with `epoch` fixed; so during an epoch that
   * started at `iter == Times(n, epoch)`, `iter_in_epoch = iter - Times(n, epoch)` runs
   * through `0 … n - 1`.
   */
  lemma {:induction false} TrainIterClock(hooks: seq<Hook>, n: nat, c: Clock)
    ensures forall i :: 0 <= i < |TrainIterCalls(hooks, n, c)| ==>
      var at := TrainIterCalls(hooks, n, c)[i].at;
      at.stage == c.stage && at.epoch == c.epoch && c.iter <= at.iter < c.iter + n
  {
    if n > 0 {
      TrainIterClock(hooks, n - 1, c);
      var at := c.(iter := c.iter + n - 1);
      var a := TrainIterCalls(hooks, n - 1, c);
      var r := a + Dispatch(hooks, BeforeTrainIter, at) + Dispatch(hooks, AfterTrainIter, at);
      forall i | 0 <= i < |r|
        ensures r[i].at.stage == c.stage && r[i].at.epoch == c.epoch && c.iter <= r[i].at.iter < c.iter + n
      {
        if i < |a| {
          assert r[i] == a[i];
        } else if i < |a| + |hooks| {
          DispatchAt(hooks, BeforeTrainIter, at, i - |a|);
          assert r[i] == Dispatch(hooks, BeforeTrainIter, at)[i - |a|];
        } else {
          DispatchAt(hooks, AfterTrainIter, at, i - |a| - |hooks|);
          assert r[i] == Dispatch(hooks, AfterTrainIter, at)[i - |a| - |hooks|];
        }
      }
    }
  }

  lemma {:induction false} ValIterNoStageEvents(hooks: seq<Hook>, m: nat, c: Clock, name: string)
    ensures Received(ValIterCalls(hooks, m, c), name, BeforeStage) == 0
  {
    if m > 0 {
      var a := ValIterCalls(hooks, m - 1, c);
      ValIterNoStageEvents(hooks, m - 1, c, name);
      ReceivedConcat(a + Dispatch(hooks, BeforeValIter, c), Dispatch(hooks, AfterValIter, c), name, BeforeStage);
      ReceivedConcat(a, Dispatch(hooks, BeforeValIter, c), name, BeforeStage);
      DispatchMissing(hooks, BeforeValIter, c, name, BeforeStage);
      DispatchMissing(hooks, AfterValIter, c, name, BeforeStage);
    }
  }

  lemma {:induction false} TrainIterNoStageEvents(hooks: seq<Hook>, n: nat, c: Clock, name: string)
    ensures Received(TrainIterCalls(hooks, n, c), name, BeforeStage) == 0
  {
    if n > 0 {
      var at := c.(iter := c.iter + n - 1);
      var a := TrainIterCalls(hooks, n - 1, c);
      TrainIterNoStageEvents(hooks, n - 1, c, name);
      ReceivedConcat(a + Dispatch(hooks, BeforeTrainIter, at), Dispatch(hooks, AfterTrainIter, at), name, BeforeStage);
      ReceivedConcat(a, Dispatch(hooks, BeforeTrainIter, at), name, BeforeStage);
      DispatchMissing(hooks, BeforeTrainIter, at, name, BeforeStage);
      DispatchMissing(hooks, AfterTrainIter, at, name, BeforeStage);
    }
  }

  /** A training epoch never fires `before_stage`. */
  lemma TrainEpochNoStageEvents(hooks: seq<Hook>, n: nat, c: Clock, name: string)
    ensures Received(TrainEpochCalls(hooks, n, c), name, BeforeStage) == 0
  {
    var t1 := Dispatch(hooks, BeforeTrainEpoch, c);
    var t2 := TrainIterCalls(hooks, n, c);
    var t3 := Dispatch(hooks, AfterTrainEpoch, c.(iter := c.iter + n));
    ReceivedConcat(t1 + t2, t3, name, BeforeStage);
    ReceivedConcat(t1, t2, name, BeforeStage);
    DispatchMissing(hooks, BeforeTrainEpoch, c, name, BeforeStage);
    DispatchMissing(hooks, AfterTrainEpoch, c.(iter := c.iter + n), name, BeforeStage);
    TrainIterNoStageEvents(hooks, n, c, name);
  }

  /** A validation epoch never fires `before_stage`. */
  lemma ValEpochNoStageEvents(hooks: seq<Hook>, m: nat, c: Clock, name: string)
    ensures Received(ValEpochCalls(hooks, m, c), name, BeforeStage) == 0
  {
    var v1 := Dispatch(hooks, BeforeValEpoch, c);
    var v2 := ValIterCalls(hooks, m, c);
    var v3 := Dispatch(hooks, AfterValEpoch, c);
    ReceivedConcat(v1 + v2, v3, name, BeforeStage);
    ReceivedConcat(v1, v2, name, BeforeStage);
    DispatchMissing(hooks, BeforeValEpoch, c, name, BeforeStage);
    DispatchMissing(hooks, AfterValEpoch, c, name, BeforeStage);
    ValIterNoStageEvents(hooks, m, c, name);
  }

  lemma EpochNoStageEvents(stages: seq<Stage>, s: nat, hooks: seq<Hook>, n: nat, m: nat, e: nat, it: nat, name: string)
    requires s < |stages|
    ensures Received(EpochCalls(stages, s, hooks, n, m, e, it), name, BeforeStage) == 0
  {
    var t := TrainEpochCalls(hooks, n, Clock(s, e, it));
    var v := if Validates(stages, s, e + 1) then ValEpochCalls(hooks, m, Clock(s, e + 1, it + n)) else [];
    ReceivedConcat(t, v, name, BeforeStage);
    TrainEpochNoStageEvents(hooks, n, Clock(s, e, it), name);
    if Validates(stages, s, e + 1) {
      ValEpochNoStageEvents(hooks, m, Clock(s, e + 1, it + n), name);
    }
  }

  lemma {:induction false} StageLoopNoStageEvents(stages: seq<Stage>, s: nat, hooks: seq<Hook>, n: nat, m: nat,
                                                  e0: nat, it0: nat, e: nat, name: string)
    requires s < |stages| && e0 <= e
    ensures Received(StageLoopCalls(stages, s, hooks, n, m, e0, it0, e), name, BeforeStage) == 0
    decreases e - e0
  {
    if e > e0 {
      StageLoopNoStageEvents(stages, s, hooks, n, m, e0, it0, e - 1, name);
      var it := it0 + Times(n, e - 1 - e0);
      EpochNoStageEvents(stages, s, hooks, n, m, e - 1, it, name);
      ReceivedSum(StageLoopCalls(stages, s, hooks, n, m, e0, it0, e), StageLoopCalls(stages, s, hooks, n, m, e0, it0, e - 1),
        EpochCalls(stages, s, hooks, n, m, e - 1, it), name, BeforeStage, 0, 0);
    }
  }

  /**
   * A completed launch from stage `s` calls `before_stage` on each hook
   * exactly once per remaining stage.
   */
  lemma {:induction false} LaunchStagesOnce(model: Model, stages: seq<Stage>, hooks: seq<Hook>, n: nat, m: nat,
                                            s: nat, e: nat, it: nat, k: nat)
    requires UniqueNames(hooks) && k < |hooks| && s <= |stages|
    requires LaunchRun(model, stages, hooks, n, m, s, e, it).Some?
    ensures Received(LaunchRun(model, stages, hooks, n, m, s, e, it).value.calls, hooks[k].name, BeforeStage) ==
      |stages| - s
    decreases |stages| - s
  {
    if s < |stages| {
      var e1 := LaunchRunSplit(model, stages, hooks, n, m, s, e, it);
      var it1 := it + Times(n, e1 - e);
      var here := StageCalls(stages, s, hooks, n, m, e, it, e1);
      var rest := LaunchRun(model, stages, hooks, n, m, s + 1, e1, it1).value.calls;
      LaunchStagesOnce(model, stages, hooks, n, m, s + 1, e1, it1, k);
      StageCallsOnce(stages, s, hooks, n, m, e, it, e1, k);
      ReceivedConcat(here, rest, hooks[k].name, BeforeStage);
    }
  }

  /** A completed launch from a stage that exists: that stage's calls, then the completed launch from the next. */
  lemma LaunchRunSplit(model: Model, stages: seq<Stage>, hooks: seq<Hook>, n: nat, m: nat, s: nat, e: nat, it: nat)
    returns (e1: nat)
    requires s < |stages| && LaunchRun(model, stages, hooks, n, m, s, e, it).Some?
    ensures LoopEnd(stages, s, e) == Some(e1) && e <= e1
    ensures LaunchRun(model, stages, hooks, n, m, s + 1, e1, it + Times(n, e1 - e)).Some?
    ensures LaunchRun(model, stages, hooks, n, m, s, e, it).value.calls ==
      StageCalls(stages, s, hooks, n, m, e, it, e1) + LaunchRun(model, stages, hooks, n, m, s + 1, e1, it + Times(n, e1 - e)).value.calls
  {
    e1 := LoopEnd(stages, s, e).value;
    LaunchRunStep(model, stages, hooks, n, m, s, e, it, e1);
  }

  lemma ReceivedSum(t: seq<Call>, a: seq<Call>, b: seq<Call>, name: string, ev: Event, na: nat, nb: nat)
    requires t == a + b && Received(a, name, ev) == na && Received(b, name, ev) == nb
    ensures Received(t, name, ev) == na + nb
  {
    ReceivedConcat(a, b, name, ev);
  }

  /** One `run_stage` calls `before_stage` on each hook exactly once. */
  lemma StageCallsOnce(stages: seq<Stage>, s: nat, hooks: seq<Hook>, n: nat, m: nat, e: nat, it: nat, e1: nat, k: nat)
    requires UniqueNames(hooks) && k < |hooks| && s < |stages| && e <= e1
    ensures Received(StageCalls(stages, s, hooks, n, m, e, it, e1), hooks[k].name, BeforeStage) == 1
  {
    var name := hooks[k].name;
    var a := Dispatch(hooks, BeforeStage, Clock(s, e, it));
    var b := StageLoopCalls(stages, s, hooks, n, m, e, it, e1);
    var d := Dispatch(hooks, AfterStage, Clock(s, e1, it + Times(n, e1 - e)));
    ReceivedConcat(a + b, d, name, BeforeStage);
    ReceivedConcat(a, b, name, BeforeStage);
    DispatchOnce(hooks, BeforeStage, Clock(s, e, it), k, BeforeStage);
    DispatchMissing(hooks, AfterStage, Clock(s, e1, it + Times(n, e1 - e)), name, BeforeStage);
    StageLoopNoStageEvents(stages, s, hooks, n, m, e, it, e1, name);
  }

  /** Where the `launch` loop from stage `s` ends, as (epoch, iteration), ignoring calls and log. */
  function LaunchEnd(stages: seq<Stage>, n: nat, s: nat, e: nat, it: nat): Option<(nat, nat)>
    decreases |stages| - s
  {
    if s >= |stages| then Some((e, it))
    else match LoopEnd(stages, s, e)
      case None => None
      case Some(e1) => LaunchEnd(stages, n, s + 1, e1, it + Times(n, e1 - e))
  }

  /** A launch ends where its counters-only reference says, and exactly when that one does. */
  lemma {:induction false} LaunchRunEnd(model: Model, stages: seq<Stage>, hooks: seq<Hook>, n: nat, m: nat,
                                        s: nat, e: nat, it: nat)
    ensures var r, c := LaunchRun(model, stages, hooks, n, m, s, e, it), LaunchEnd(stages, n, s, e, it);
      (r.Some? <==> c.Some?) && (r.Some? ==> r.value.epoch == c.value.0 && r.value.iter == c.value.1)
    decreases |stages| - s
  {
    if s < |stages| && LoopEnd(stages, s, e).Some? {
      var e1 := LoopEnd(stages, s, e).value;
      LaunchRunStep(model, stages, hooks, n, m, s, e, it, e1);
      LaunchRunEnd(model, stages, hooks, n, m, s + 1, e1, it + Times(n, e1 - e));
    }
  }

  /** The counters only grow: the end epoch is no earlier than the start, with `n` iterations per epoch. */
  lemma {:induction false} LaunchEndCounters(stages: seq<Stage>, n: nat, s: nat, e: nat, it: nat)
    requires LaunchEnd(stages, n, s, e, it).Some?
    ensures var c := LaunchEnd(stages, n, s, e, it).value;
      e <= c.0 && c.1 == it + Times(n, c.0 - e)
    decreases |stages| - s
  {
    if s < |stages| {
      var e1 := LoopEnd(stages, s, e).value;
      LaunchEndCounters(stages, n, s + 1, e1, it + Times(n, e1 - e));
      var c := LaunchEnd(stages, n, s + 1, e1, it + Times(n, e1 - e)).value;
      TimesAdd(n, e1 - e, c.0 - e1);
    }
  }

  /** A completed launch ends no earlier than it started, having run `n` iterations per epoch. */
  lemma LaunchRunCounters(model: Model, stages: seq<Stage>, hooks: seq<Hook>, n: nat, m: nat, s: nat, e: nat, it: nat)
    requires LaunchRun(model, stages, hooks, n, m, s, e, it).Some?
    ensures var r := LaunchRun(model, stages, hooks, n, m, s, e, it).value;
      e <= r.epoch && r.iter == it + Times(n, r.epoch - e)
  {
    LaunchRunEnd(model, stages, hooks, n, m, s, e, it);
    LaunchEndCounters(stages, n, s, e, it);
  }

  /** A one-stage schedule of E epochs, launched fresh, ends at epoch E and iteration Times(n, E). */
  lemma SingleStageRun(model: Model, st: Stage, hooks: seq<Hook>, n: nat, m: nat, it: nat)
    ensures var r := LaunchRun(model, [st], hooks, n, m, 0, 0, it);
      r.Some? && r.value.epoch == st.epochs && r.value.iter == it + n * st.epochs
  {
    SingleStageLoopEnd(st, 0);
    TimesIsMul(n, st.epochs);
  }

  /** With stages [3, 1] no launch from the start completes. */
  lemma ThreeOneLaunchDiverges(model: Model, hooks: seq<Hook>, n: nat, m: nat)
    ensures LaunchRun(model, [PlainStage(3), PlainStage(1)], hooks, n, m, 0, 0, 0) == None
  {
    ThreeOneScheduleDiverges();
  }

  /** With stages [2, 3] a launch from the start completes at epoch 5, stage 0 having trained 4 epochs. */
  lemma TwoThreeLaunch(model: Model, hooks: seq<Hook>, n: nat, m: nat)
    ensures var r := LaunchRun(model, [PlainStage(2), PlainStage(3)], hooks, n, m, 0, 0, 0);
      r.Some? && r.value.epoch == 5 && r.value.iter == 5 * n
  {
    TwoThreeSchedule();
    var stages := [PlainStage(2), PlainStage(3)];
    TimesIsMul(n, 4);
    TimesIsMul(n, 1);
    assert LaunchRun(model, stages, hooks, n, m, 2, 5, 5 * n) == Some(RunEnd([], [], 5, 5 * n));
  }


  // ------------------------------------------------------------ step lemmas

  lemma Assoc<T>(a: seq<T>, b: seq<T>, c: seq<T>)
    ensures a + (b + c) == (a + b) + c
  {
  }

  lemma TrainIterStep(t0: seq<Call>, hooks: seq<Hook>, b: nat, c: Clock)
    ensures var at := c.(iter := c.iter + b);
      t0 + TrainIterCalls(hooks, b, c) + Dispatch(hooks, BeforeTrainIter, at) + Dispatch(hooks, AfterTrainIter, at) ==
      t0 + TrainIterCalls(hooks, b + 1, c)
  {
    var at := c.(iter := c.iter + b);
    var d1, d2 := Dispatch(hooks, BeforeTrainIter, at), Dispatch(hooks, AfterTrainIter, at);
    assert TrainIterCalls(hooks, b + 1, c) == TrainIterCalls(hooks, b, c) + d1 + d2;
    Assoc(t0, TrainIterCalls(hooks, b, c), d1);
    Assoc(t0, TrainIterCalls(hooks, b, c) + d1, d2);
  }

  lemma TrainEpochSplit(t0: seq<Call>, hooks: seq<Hook>, n: nat, c: Clock)
    ensures t0 + Dispatch(hooks, BeforeTrainEpoch, c) + TrainIterCalls(hooks, n, c) +
      Dispatch(hooks, AfterTrainEpoch, c.(iter := c.iter + n)) == t0 + TrainEpochCalls(hooks, n, c)
  {
    var d1, d2 := Dispatch(hooks, BeforeTrainEpoch, c), Dispatch(hooks, AfterTrainEpoch, c.(iter := c.iter + n));
    Assoc(t0, d1, TrainIterCalls(hooks, n, c));
    Assoc(t0, d1 + TrainIterCalls(hooks, n, c), d2);
  }

  lemma ValIterStep(t0: seq<Call>, hooks: seq<Hook>, b: nat, c: Clock)
    ensures t0 + ValIterCalls(hooks, b, c) + Dispatch(hooks, BeforeValIter, c) + Dispatch(hooks, AfterValIter, c) ==
      t0 + ValIterCalls(hooks, b + 1, c)
  {
    var d1, d2 := Dispatch(hooks, BeforeValIter, c), Dispatch(hooks, AfterValIter, c);
    Assoc(t0, ValIterCalls(hooks, b, c), d1);
    Assoc(t0, ValIterCalls(hooks, b, c) + d1, d2);
  }

  lemma ValEpochSplit(t0: seq<Call>, hooks: seq<Hook>, m: nat, c: Clock)
    ensures t0 + Dispatch(hooks, BeforeValEpoch, c) + ValIterCalls(hooks, m, c) + Dispatch(hooks, AfterValEpoch, c) ==
      t0 + ValEpochCalls(hooks, m, c)
  {
    var d1, d2 := Dispatch(hooks, BeforeValEpoch, c), Dispatch(hooks, AfterValEpoch, c);
    Assoc(t0, d1, ValIterCalls(hooks, m, c));
    Assoc(t0, d1 + ValIterCalls(hooks, m, c), d2);
  }

  lemma EpochLogStep(l0: Output, model: Model, mode: Mode, epoch: nat, b: nat)
    ensures l0 + EpochLog(model, mode, epoch, b) + model(mode, epoch, b) == l0 + EpochLog(model, mode, epoch, b + 1)
  {
    Assoc(l0, EpochLog(model, mode, epoch, b), model(mode, epoch, b));
  }

  /** `TrainIterStep` for a trace `t1` that is one more iteration's calls after `b`. */
  lemma TrainIterNext(t0: seq<Call>, hooks: seq<Hook>, b: nat, c: Clock, t1: seq<Call>)
    requires var at := c.(iter := c.iter + b);
      t1 == t0 + TrainIterCalls(hooks, b, c) + Dispatch(hooks, BeforeTrainIter, at) + Dispatch(hooks, AfterTrainIter, at)
    ensures t1 == t0 + TrainIterCalls(hooks, b + 1, c)
  {
    TrainIterStep(t0, hooks, b, c);
  }

  /** The trace of a training epoch assembled from its three steps. */
  lemma TrainEpochEnd(hooks: seq<Hook>, n: nat, c: Clock, c2: Clock, t0: seq<Call>, t1: seq<Call>, t2: seq<Call>, t3: seq<Call>)
    requires t1 == t0 + Dispatch(hooks, BeforeTrainEpoch, c)
    requires t2 == t1 + TrainIterCalls(hooks, n, c)
    requires c2 == c.(iter := c.iter + n) && t3 == t2 + Dispatch(hooks, AfterTrainEpoch, c2)
    ensures t3 == t0 + TrainEpochCalls(hooks, n, c)
  {
    TrainEpochSplit(t0, hooks, n, c);
  }

  lemma EpochLogNext(l0: Output, model: Model, mode: Mode, epoch: nat, b: nat, l1: Output)
    requires l1 == l0 + EpochLog(model, mode, epoch, b) + model(mode, epoch, b)
    ensures l1 == l0 + EpochLog(model, mode, epoch, b + 1)
  {
    EpochLogStep(l0, model, mode, epoch, b);
  }

  /** A pass of the stage loop that validates: the training epoch's calls and writes, then the validation epoch's. */
  lemma EpochWithValidation(t0: seq<Call>, l0: Output, model: Model, stages: seq<Stage>, s: nat, hooks: seq<Hook>,
                            n: nat, m: nat, e: nat, it: nat, t1: seq<Call>, l1: Output)
    requires s < |stages| && Validates(stages, s, e + 1)
    requires t1 == t0 + TrainEpochCalls(hooks, n, Clock(s, e, it)) + ValEpochCalls(hooks, m, Clock(s, e + 1, it + n))
    requires l1 == l0 + EpochLog(model, Train, e, n) + EpochLog(model, Val, e + 1, m)
    ensures t1 == t0 + EpochCalls(stages, s, hooks, n, m, e, it)
    ensures l1 == l0 + EpochWrites(model, stages, s, n, m, e)
  {
    Assoc(t0, TrainEpochCalls(hooks, n, Clock(s, e, it)), ValEpochCalls(hooks, m, Clock(s, e + 1, it + n)));
    Assoc(l0, EpochLog(model, Train, e, n), EpochLog(model, Val, e + 1, m));
  }

  /** A pass of the stage loop that does not validate: the training epoch's calls and writes only. */
  lemma EpochWithoutValidation(t0: seq<Call>, l0: Output, model: Model, stages: seq<Stage>, s: nat, hooks: seq<Hook>,
                               n: nat, m: nat, e: nat, it: nat, t1: seq<Call>, l1: Output)
    requires s < |stages| && !Validates(stages, s, e + 1)
    requires t1 == t0 + TrainEpochCalls(hooks, n, Clock(s, e, it))
    requires l1 == l0 + EpochLog(model, Train, e, n)
    ensures t1 == t0 + EpochCalls(stages, s, hooks, n, m, e, it)
    ensures l1 == l0 + EpochWrites(model, stages, s, n, m, e)
  {
    assert EpochCalls(stages, s, hooks, n, m, e, it) == TrainEpochCalls(hooks, n, Clock(s, e, it)) + [];
    assert EpochWrites(model, stages, s, n, m, e) == EpochLog(model, Train, e, n) + [];
  }

  lemma StageLoopStep(t0: seq<Call>, l0: Output, model: Model, stages: seq<Stage>, s: nat, hooks: seq<Hook>,
                      n: nat, m: nat, e0: nat, it0: nat, e: nat, it: nat, t: seq<Call>, l: Output, t1: seq<Call>, l1: Output)
    requires s < |stages| && LoopAt(model, stages, s, hooks, n, m, e0, it0, t0, l0, e, it, t, l)
    requires t1 == t + EpochCalls(stages, s, hooks, n, m, e, it) && l1 == l + EpochWrites(model, stages, s, n, m, e)
    ensures LoopAt(model, stages, s, hooks, n, m, e0, it0, t0, l0, e + 1, it + n, t1, l1)
  {
    assert e + 1 - 1 - e0 == e - e0;
    Assoc(t0, StageLoopCalls(stages, s, hooks, n, m, e0, it0, e), EpochCalls(stages, s, hooks, n, m, e, it0 + Times(n, e - e0)));
    Assoc(l0, StageLoopLog(model, stages, s, n, m, e0, e), EpochWrites(model, stages, s, n, m, e));
  }

  /** A pass whose validation raised ends the loop's calls and writes with its training epoch. */
  lemma RaisedLoopStep(t0: seq<Call>, l0: Output, model: Model, stages: seq<Stage>, s: nat, hooks: seq<Hook>,
                       n: nat, m: nat, hasVal: bool, e0: nat, it0: nat, e: nat, it: nat, t: seq<Call>, l: Output,
                       t1: seq<Call>, l1: Output)
    requires s < |stages| && LoopAt(model, stages, s, hooks, n, m, e0, it0, t0, l0, e, it, t, l)
    requires !hasVal && Validates(stages, s, e + 1)
    requires t1 == t + TrainEpochCalls(hooks, n, Clock(s, e, it)) && l1 == l + EpochLog(model, Train, e, n)
    ensures LoopRaised(model, stages, s, hooks, n, m, hasVal, e0, it0, t0, l0, e + 1, it + n, t1, l1)
  {
    assert e + 1 - 1 - e0 == e - e0;
    Assoc(t0, StageLoopCalls(stages, s, hooks, n, m, e0, it0, e), TrainEpochCalls(hooks, n, Clock(s, e, it)));
    Assoc(l0, StageLoopLog(model, stages, s, n, m, e0, e), EpochLog(model, Train, e, n));
  }

  lemma StageSplit(t0: seq<Call>, stages: seq<Stage>, s: nat, hooks: seq<Hook>, n: nat, m: nat,
                   e0: nat, it0: nat, e1: nat, it1: nat, t1: seq<Call>)
    requires s < |stages| && e0 <= e1 && it1 == it0 + Times(n, e1 - e0)
    requires t1 == t0 + Dispatch(hooks, BeforeStage, Clock(s, e0, it0)) + StageLoopCalls(stages, s, hooks, n, m, e0, it0, e1) +
      Dispatch(hooks, AfterStage, Clock(s, e1, it1))
    ensures t1 == t0 + StageCalls(stages, s, hooks, n, m, e0, it0, e1)
  {
    var d1, d2 := Dispatch(hooks, BeforeStage, Clock(s, e0, it0)), Dispatch(hooks, AfterStage, Clock(s, e1, it0 + Times(n, e1 - e0)));
    var l := StageLoopCalls(stages, s, hooks, n, m, e0, it0, e1);
    Assoc(t0, d1, l);
    Assoc(t0, d1 + l, d2);
  }

  /** The `launch` loop: one completed stage, then the rest of the run. */
  lemma LaunchRunStep(model: Model, stages: seq<Stage>, hooks: seq<Hook>, n: nat, m: nat, s: nat, e: nat, it: nat, e1: nat)
    requires s < |stages| && LoopEnd(stages, s, e) == Some(e1)
    ensures LaunchRun(model, stages, hooks, n, m, s, e, it) ==
      Prepend(StageCalls(stages, s, hooks, n, m, e, it, e1), StageLoopLog(model, stages, s, n, m, e, e1),
        LaunchRun(model, stages, hooks, n, m, s + 1, e1, it + Times(n, e1 - e)))
  {
  }

  /**
   * `LaunchRun` with the calls `t` and the writes `l` made so far carried
   * along: the whole trace and log at the end of the run.
   */
  function LaunchFrom(model: Model, stages: seq<Stage>, hooks: seq<Hook>, n: nat, m: nat,
                      t: seq<Call>, l: Output, s: nat, e: nat, it: nat): Option<RunEnd>
    decreases |stages| - s
  {
    if s >= |stages| then Some(RunEnd(t, l, e, it))
    else match LoopEnd(stages, s, e)
      case None => None
      case Some(e1) =>
        LaunchFrom(model, stages, hooks, n, m, t + StageCalls(stages, s, hooks, n, m, e, it, e1),
          l + StageLoopLog(model, stages, s, n, m, e, e1), s + 1, e1, it + Times(n, e1 - e))
  }

  /**
   * Every stage from `s` on leaves its loop within `fuel` epochs, builds
   * its optimizer when it has to, and never validates without a
   * validation loader: a launch from there raises nothing.
   */
  predicate Completes(stages: seq<Stage>, hasVal: bool, fuel: nat, s: nat, e: nat)
    decreases |stages| - s
  {
    s >= |stages| ||
    (LoopEnd(stages, s, e).Some? && LoopEnd(stages, s, e).value <= e + fuel &&
     (EpochInStage(stages, e) != 0 || ResolveOptimizer(stages[s].optimizer).Ok?) &&
     (hasVal || NoValidation(stages, s, e, LoopEnd(stages, s, e).value)) &&
     Completes(stages, hasVal, fuel, s + 1, LoopEnd(stages, s, e).value))
  }

  lemma CompletesHead(stages: seq<Stage>, hasVal: bool, fuel: nat, s: nat, e: nat)
    requires s < |stages| && Completes(stages, hasVal, fuel, s, e)
    ensures LoopEnd(stages, s, e).Some? && LoopEnd(stages, s, e).value <= e + fuel
    ensures EpochInStage(stages, e) != 0 || ResolveOptimizer(stages[s].optimizer).Ok?
    ensures hasVal || NoValidation(stages, s, e, LoopEnd(stages, s, e).value)
    ensures Completes(stages, hasVal, fuel, s + 1, LoopEnd(stages, s, e).value)
  {
  }

  /** A one-stage schedule launched fresh completes when the stage's optimizer resolves and the fuel covers it. */
  lemma SingleStageCompletes(st: Stage, hasVal: bool, fuel: nat)
    requires fuel >= st.epochs && ResolveOptimizer(st.optimizer).Ok? && (hasVal || st.valInterval <= 0)
    ensures Completes([st], hasVal, fuel, 0, 0)
  {
    SingleStageLoopEnd(st, 0);
  }

  /** The accumulating reference unfolds one stage at a time. */
  lemma LaunchFromStep(model: Model, stages: seq<Stage>, hooks: seq<Hook>, n: nat, m: nat,
                       t: seq<Call>, l: Output, s: nat, e: nat, it: nat, e1: nat)
    requires s < |stages| && LoopEnd(stages, s, e) == Some(e1)
    ensures LaunchFrom(model, stages, hooks, n, m, t, l, s, e, it) ==
      LaunchFrom(model, stages, hooks, n, m, t + StageCalls(stages, s, hooks, n, m, e, it, e1),
        l + StageLoopLog(model, stages, s, n, m, e, e1), s + 1, e1, it + Times(n, e1 - e))
  {
  }

  lemma {:induction false} LaunchFromRun(model: Model, stages: seq<Stage>, hooks: seq<Hook>, n: nat, m: nat,
                                         t: seq<Call>, l: Output, s: nat, e: nat, it: nat)
    ensures LaunchFrom(model, stages, hooks, n, m, t, l, s, e, it) == Prepend(t, l, LaunchRun(model, stages, hooks, n, m, s, e, it))
    decreases |stages| - s
  {
    if s >= |stages| {
      assert t + [] == t && l + [] == l;
    } else if LoopEnd(stages, s, e).Some? {
      var e1 := LoopEnd(stages, s, e).value;
      var sc, sl := StageCalls(stages, s, hooks, n, m, e, it, e1), StageLoopLog(model, stages, s, n, m, e, e1);
      LaunchFromRun(model, stages, hooks, n, m, t + sc, l + sl, s + 1, e1, it + Times(n, e1 - e));
      PrependAssoc(t, l, sc, sl, LaunchRun(model, stages, hooks, n, m, s + 1, e1, it + Times(n, e1 - e)));
    }
  }

  /** The state after stage `s`, entered in state `r`, leaves its loop at epoch `e1` and runs its `after_stage` hooks. */
  function StageEnd(model: Model, stages: seq<Stage>, hooks: seq<Hook>, n: nat, m: nat, s: nat, r: RunEnd, e1: nat): RunEnd
    requires s < |stages| && r.epoch <= e1
  {
    RunEnd(r.calls + StageCalls(stages, s, hooks, n, m, r.epoch, r.iter, e1),
      r.log + StageLoopLog(model, stages, s, n, m, r.epoch, e1), e1, r.iter + Times(n, e1 - r.epoch))
  }

  /**
   * The `launch` loop entered at stage `s` in state `from` (calls, writes
   * and counters) enters stage `k` in state `at`: every stage from `s`
   * up to `k` left its loop, one after the other.
   */
  predicate EntersStage(model: Model, stages: seq<Stage>, hooks: seq<Hook>, n: nat, m: nat,
                        s: nat, from: RunEnd, k: nat, at: RunEnd)
    decreases k - s
  {
    s <= k <= |stages| &&
    if s == k then at == from
    else match LoopEnd(stages, s, from.epoch)
      case None => false
      case Some(e1) => EntersStage(model, stages, hooks, n, m, s + 1, StageEnd(model, stages, hooks, n, m, s, from, e1), k, at)
  }

  /** The stage a launch loop enters is entered in one state only. */
  lemma {:induction false} EntersStageUnique(model: Model, stages: seq<Stage>, hooks: seq<Hook>, n: nat, m: nat,
                                             s: nat, from: RunEnd, k: nat, a: RunEnd, b: RunEnd)
    requires EntersStage(model, stages, hooks, n, m, s, from, k, a)
    requires EntersStage(model, stages, hooks, n, m, s, from, k, b)
    ensures a == b
    decreases k - s
  {
    if s < k {
      var e1 := LoopEnd(stages, s, from.epoch).value;
      EntersStageUnique(model, stages, hooks, n, m, s + 1, StageEnd(model, stages, hooks, n, m, s, from, e1), k, a, b);
    }
  }

  /** A stage that leaves its loop lets the launch loop enter the next one. */
  lemma {:induction false} EntersStageNext(model: Model, stages: seq<Stage>, hooks: seq<Hook>, n: nat, m: nat,
                                           s: nat, from: RunEnd, k: nat, at: RunEnd, e1: nat)
    requires k < |stages| && EntersStage(model, stages, hooks, n, m, s, from, k, at)
    requires LoopEnd(stages, k, at.epoch) == Some(e1)
    ensures at.epoch <= e1
    ensures EntersStage(model, stages, hooks, n, m, s, from, k + 1, StageEnd(model, stages, hooks, n, m, k, at, e1))
    decreases k - s
  {
    if s < k {
      var f1 := LoopEnd(stages, s, from.epoch).value;
      EntersStageNext(model, stages, hooks, n, m, s + 1, StageEnd(model, stages, hooks, n, m, s, from, f1), k, at, e1);
    }
  }

  /** Entering stage `k` leaves the rest of the launch, as `LaunchFrom` computes it, to do from there. */
  lemma {:induction false} EntersStageFrom(model: Model, stages: seq<Stage>, hooks: seq<Hook>, n: nat, m: nat,
                                           s: nat, from: RunEnd, k: nat, at: RunEnd)
    requires EntersStage(model, stages, hooks, n, m, s, from, k, at)
    ensures LaunchFrom(model, stages, hooks, n, m, from.calls, from.log, s, from.epoch, from.iter) ==
      LaunchFrom(model, stages, hooks, n, m, at.calls, at.log, k, at.epoch, at.iter)
    decreases k - s
  {
    if s < k {
      var e1 := LoopEnd(stages, s, from.epoch).value;
      var r := StageEnd(model, stages, hooks, n, m, s, from, e1);
      EntersStageFrom(model, stages, hooks, n, m, s + 1, r, k, at);
      LaunchFromStep(model, stages, hooks, n, m, from.calls, from.log, s, from.epoch, from.iter, e1);
    }
  }

  /**
   * How `run_stage` of stage `s`, entered with counters `e0`, `it0`, calls
   * `t0` and writes `l0`, can stop without finishing, and what it leaves:
   * out of fuel inside its loop; a TypeError from `build_optimizer` with
   * nothing done; or a KeyError from a validation epoch due without a
   * validation loader, after that pass's training epoch.
   */
  predicate Stopped(model: Model, stages: seq<Stage>, hooks: seq<Hook>, n: nat, m: nat, hasVal: bool, fuel: nat,
                    s: nat, e0: nat, it0: nat, t0: seq<Call>, l0: Output,
                    out: Outcome, e: nat, it: nat, t: seq<Call>, l: Output)
    requires s < |stages|
  {
    match out
    case Finished => false
    case OutOfFuel =>
      e == e0 + fuel && it == it0 + Times(n, fuel) &&
      (LoopEnd(stages, s, e0).None? || LoopEnd(stages, s, e0).value > e) &&
      t == t0 + Dispatch(hooks, BeforeStage, Clock(s, e0, it0)) + StageLoopCalls(stages, s, hooks, n, m, e0, it0, e) &&
      l == l0 + StageLoopLog(model, stages, s, n, m, e0, e)
    case Raised(err) =>
      (err == OptimizerTypeError && EpochInStage(stages, e0) == 0 && ResolveOptimizer(stages[s].optimizer).Err? &&
       e == e0 && it == it0 && t == t0 && l == l0) ||
      (err == MissingValLoader &&
       LoopRaised(model, stages, s, hooks, n, m, hasVal, e0, it0, t0 + Dispatch(hooks, BeforeStage, Clock(s, e0, it0)), l0, e, it, t, l))
  }

  // ------------------------------------------------------------- counters

  /**
   * Counters a hook of a run from a fresh engine can see: the stage is a
   * stage or just past the last, the epoch is at or past that stage's
   * first epoch, and `iter` is between the start and the end of the epoch.
   * `iter_in_stage` and `iter_in_epoch` are then never negative.
   */
  predicate OnSchedule(stages: seq<Stage>, n: nat, c: Clock)
  {
    c.stage <= |stages| && CumEpochs(stages, c.stage) <= c.epoch && Times(n, c.epoch) <= c.iter <= Times(n, c.epoch) + n
  }

  /** The counters between two epochs: on schedule, with exactly `n` iterations per epoch done. */
  predicate Aligned(stages: seq<Stage>, n: nat, c: Clock)
  {
    OnSchedule(stages, n, c) && c.iter == Times(n, c.epoch)
  }

  /** On schedule, the counters bound `iter` below by the iterations of the stages and epochs before. */
  lemma OnScheduleCounters(stages: seq<Stage>, n: nat, c: Clock)
    ensures OnSchedule(stages, n, c) ==>
      n * CumEpochs(stages, c.stage) <= n * c.epoch <= c.iter <= n * c.epoch + n
  {
    if OnSchedule(stages, n, c) {
      TimesIsMul(n, c.epoch);
      MulMono(n, CumEpochs(stages, c.stage), c.epoch);
    }
  }

  lemma MulMono(n: nat, a: nat, b: nat)
    requires a <= b
    ensures n * a <= n * b
  {
    assert n * b == n * a + n * (b - a);
  }

  /** Epochs of `n` iterations within a stage keep the counters aligned. */
  lemma AlignedAdvance(stages: seq<Stage>, n: nat, c: Clock, e: nat, it: nat)
    requires Aligned(stages, n, c) && c.epoch <= e && it == c.iter + Times(n, e - c.epoch)
    ensures Aligned(stages, n, Clock(c.stage, e, it))
  {
    TimesAdd(n, c.epoch, e - c.epoch);
    assert c.epoch + (e - c.epoch) == e;
  }

  /** A stage that leaves its loop hands aligned counters to the next stage. */
  lemma AlignedNextStage(stages: seq<Stage>, n: nat, c: Clock, e1: nat, it: nat)
    requires Aligned(stages, n, c) && c.stage < |stages| && LoopEnd(stages, c.stage, c.epoch) == Some(e1)
    requires it == c.iter + Times(n, e1 - c.epoch)
    ensures Aligned(stages, n, Clock(c.stage + 1, e1, it))
  {
    AlignedAdvance(stages, n, c, e1, it);
    ExitPastStage(stages, c.stage, e1);
  }

  /** Every call in `calls` from position `j` on saw counters on schedule. */
  predicate OnScheduleSince(stages: seq<Stage>, n: nat, calls: seq<Call>, j: nat)
  {
    forall i :: j <= i < |calls| ==> OnSchedule(stages, n, calls[i].at)
  }

  /** Appending calls that are all on schedule keeps a trace on schedule from `j`. */
  lemma OnScheduleAppend(stages: seq<Stage>, n: nat, a: seq<Call>, b: seq<Call>, j: nat)
    requires j <= |a| && OnScheduleSince(stages, n, a, j) && OnScheduleSince(stages, n, b, 0)
    ensures OnScheduleSince(stages, n, a + b, j)
  {
    forall i | j <= i < |a + b|
      ensures OnSchedule(stages, n, (a + b)[i].at)
    {
      if i >= |a| {
        assert (a + b)[i] == b[i - |a|];
      }
    }
  }

  lemma {:induction false} DispatchOnSchedule(stages: seq<Stage>, n: nat, hooks: seq<Hook>, event: Event, c: Clock)
    requires OnSchedule(stages, n, c)
    ensures OnScheduleSince(stages, n, Dispatch(hooks, event, c), 0)
  {
    forall i | 0 <= i < |Dispatch(hooks, event, c)|
      ensures OnSchedule(stages, n, Dispatch(hooks, event, c)[i].at)
    {
      DispatchAt(hooks, event, c, i);
    }
  }

  /** The first `k` training iterations of an epoch entered with aligned counters see `iter` within that epoch. */
  lemma {:induction false} TrainIterOnSchedule(stages: seq<Stage>, n: nat, hooks: seq<Hook>, k: nat, c: Clock)
    requires Aligned(stages, n, c) && k <= n
    ensures OnScheduleSince(stages, n, TrainIterCalls(hooks, k, c), 0)
  {
    if k > 0 {
      var at := c.(iter := c.iter + k - 1);
      TrainIterOnSchedule(stages, n, hooks, k - 1, c);
      DispatchOnSchedule(stages, n, hooks, BeforeTrainIter, at);
      DispatchOnSchedule(stages, n, hooks, AfterTrainIter, at);
      OnScheduleAppend(stages, n, TrainIterCalls(hooks, k - 1, c), Dispatch(hooks, BeforeTrainIter, at), 0);
      OnScheduleAppend(stages, n, TrainIterCalls(hooks, k - 1, c) + Dispatch(hooks, BeforeTrainIter, at),
        Dispatch(hooks, AfterTrainIter, at), 0);
    }
  }

  lemma TrainEpochOnSchedule(stages: seq<Stage>, n: nat, hooks: seq<Hook>, c: Clock)
    requires Aligned(stages, n, c)
    ensures OnScheduleSince(stages, n, TrainEpochCalls(hooks, n, c), 0)
  {
    var before := Dispatch(hooks, BeforeTrainEpoch, c);
    var after := Dispatch(hooks, AfterTrainEpoch, c.(iter := c.iter + n));
    DispatchOnSchedule(stages, n, hooks, BeforeTrainEpoch, c);
    TrainIterOnSchedule(stages, n, hooks, n, c);
    DispatchOnSchedule(stages, n, hooks, AfterTrainEpoch, c.(iter := c.iter + n));
    OnScheduleAppend(stages, n, before, TrainIterCalls(hooks, n, c), 0);
    OnScheduleAppend(stages, n, before + TrainIterCalls(hooks, n, c), after, 0);
  }

  lemma {:induction false} ValEpochOnSchedule(stages: seq<Stage>, n: nat, hooks: seq<Hook>, m: nat, c: Clock)
    requires OnSchedule(stages, n, c)
    ensures OnScheduleSince(stages, n, ValIterCalls(hooks, m, c), 0)
    ensures OnScheduleSince(stages, n, ValEpochCalls(hooks, m, c), 0)
  {
    if m > 0 {
      ValEpochOnSchedule(stages, n, hooks, m - 1, c);
      DispatchOnSchedule(stages, n, hooks, BeforeValIter, c);
      DispatchOnSchedule(stages, n, hooks, AfterValIter, c);
      OnScheduleAppend(stages, n, ValIterCalls(hooks, m - 1, c), Dispatch(hooks, BeforeValIter, c), 0);
      OnScheduleAppend(stages, n, ValIterCalls(hooks, m - 1, c) + Dispatch(hooks, BeforeValIter, c),
        Dispatch(hooks, AfterValIter, c), 0);
    }
    DispatchOnSchedule(stages, n, hooks, BeforeValEpoch, c);
    DispatchOnSchedule(stages, n, hooks, AfterValEpoch, c);
    OnScheduleAppend(stages, n, Dispatch(hooks, BeforeValEpoch, c), ValIterCalls(hooks, m, c), 0);
    OnScheduleAppend(stages, n, Dispatch(hooks, BeforeValEpoch, c) + ValIterCalls(hooks, m, c),
      Dispatch(hooks, AfterValEpoch, c), 0);
  }

  lemma EpochOnSchedule(stages: seq<Stage>, s: nat, hooks: seq<Hook>, n: nat, m: nat, e: nat, it: nat)
    requires s < |stages| && Aligned(stages, n, Clock(s, e, it))
    ensures OnScheduleSince(stages, n, EpochCalls(stages, s, hooks, n, m, e, it), 0)
  {
    TrainEpochOnSchedule(stages, n, hooks, Clock(s, e, it));
    if Validates(stages, s, e + 1) {
      AlignedAdvance(stages, n, Clock(s, e, it), e + 1, it + n);
      ValEpochOnSchedule(stages, n, hooks, m, Clock(s, e + 1, it + n));
      OnScheduleAppend(stages, n, TrainEpochCalls(hooks, n, Clock(s, e, it)), ValEpochCalls(hooks, m, Clock(s, e + 1, it + n)), 0);
    } else {
      assert EpochCalls(stages, s, hooks, n, m, e, it) == TrainEpochCalls(hooks, n, Clock(s, e, it)) + [];
    }
  }

  lemma {:induction false} StageLoopOnSchedule(stages: seq<Stage>, s: nat, hooks: seq<Hook>, n: nat, m: nat,
                                               e0: nat, it0: nat, e: nat)
    requires s < |stages| && e0 <= e && Aligned(stages, n, Clock(s, e0, it0))
    ensures OnScheduleSince(stages, n, StageLoopCalls(stages, s, hooks, n, m, e0, it0, e), 0)
    decreases e - e0
  {
    if e > e0 {
      StageLoopOnSchedule(stages, s, hooks, n, m, e0, it0, e - 1);
      AlignedAdvance(stages, n, Clock(s, e0, it0), e - 1, it0 + Times(n, e - 1 - e0));
      StageLoopOnScheduleStep(stages, s, hooks, n, m, e0, it0, e);
    }
  }

  /** The last pass of a loop whose earlier passes were on schedule, entered with aligned counters, keeps it so. */
  lemma StageLoopOnScheduleStep(stages: seq<Stage>, s: nat, hooks: seq<Hook>, n: nat, m: nat, e0: nat, it0: nat, e: nat)
    requires s < |stages| && e0 < e && Aligned(stages, n, Clock(s, e - 1, it0 + Times(n, e - 1 - e0)))
    requires OnScheduleSince(stages, n, StageLoopCalls(stages, s, hooks, n, m, e0, it0, e - 1), 0)
    ensures OnScheduleSince(stages, n, StageLoopCalls(stages, s, hooks, n, m, e0, it0, e), 0)
  {
    var it := it0 + Times(n, e - 1 - e0);
    EpochOnSchedule(stages, s, hooks, n, m, e - 1, it);
    OnScheduleAppend(stages, n, StageLoopCalls(stages, s, hooks, n, m, e0, it0, e - 1), EpochCalls(stages, s, hooks, n, m, e - 1, it), 0);
  }

  lemma StageOnSchedule(stages: seq<Stage>, s: nat, hooks: seq<Hook>, n: nat, m: nat, e0: nat, it0: nat, e1: nat)
    requires s < |stages| && e0 <= e1 && Aligned(stages, n, Clock(s, e0, it0))
    ensures OnScheduleSince(stages, n, StageCalls(stages, s, hooks, n, m, e0, it0, e1), 0)
  {
    var before := Dispatch(hooks, BeforeStage, Clock(s, e0, it0));
    var loop := StageLoopCalls(stages, s, hooks, n, m, e0, it0, e1);
    var c1 := Clock(s, e1, it0 + Times(n, e1 - e0));
    DispatchOnSchedule(stages, n, hooks, BeforeStage, Clock(s, e0, it0));
    StageLoopOnSchedule(stages, s, hooks, n, m, e0, it0, e1);
    AlignedAdvance(stages, n, Clock(s, e0, it0), e1, c1.iter);
    DispatchOnSchedule(stages, n, hooks, AfterStage, c1);
    OnScheduleAppend(stages, n, before, loop, 0);
    OnScheduleAppend(stages, n, before + loop, Dispatch(hooks, AfterStage, c1), 0);
  }

  /** Every call of a launch run from aligned counters sees counters on schedule. */
  lemma {:induction false} LaunchRunOnSchedule(model: Model, stages: seq<Stage>, hooks: seq<Hook>, n: nat, m: nat,
                                               s: nat, e: nat, it: nat)
    requires Aligned(stages, n, Clock(s, e, it))
    ensures LaunchRun(model, stages, hooks, n, m, s, e, it).Some? ==>
      OnScheduleSince(stages, n, LaunchRun(model, stages, hooks, n, m, s, e, it).value.calls, 0)
    decreases |stages| - s
  {
    if s < |stages| && LoopEnd(stages, s, e).Some? {
      var e1 := LoopEnd(stages, s, e).value;
      var it1 := it + Times(n, e1 - e);
      AlignedNextStage(stages, n, Clock(s, e, it), e1, it1);
      LaunchRunOnSchedule(model, stages, hooks, n, m, s + 1, e1, it1);
      LaunchRunOnScheduleStep(model, stages, hooks, n, m, s, e, it, e1);
    }
  }

  /** A stage run from aligned counters, followed by a rest of the launch on schedule, keeps the launch on schedule. */
  lemma LaunchRunOnScheduleStep(model: Model, stages: seq<Stage>, hooks: seq<Hook>, n: nat, m: nat,
                                s: nat, e: nat, it: nat, e1: nat)
    requires s < |stages| && LoopEnd(stages, s, e) == Some(e1) && e <= e1 && Aligned(stages, n, Clock(s, e, it))
    requires var rest := LaunchRun(model, stages, hooks, n, m, s + 1, e1, it + Times(n, e1 - e));
      rest.Some? ==> OnScheduleSince(stages, n, rest.value.calls, 0)
    ensures LaunchRun(model, stages, hooks, n, m, s, e, it).Some? ==>
      OnScheduleSince(stages, n, LaunchRun(model, stages, hooks, n, m, s, e, it).value.calls, 0)
  {
    var rest := LaunchRun(model, stages, hooks, n, m, s + 1, e1, it + Times(n, e1 - e));
    LaunchRunStep(model, stages, hooks, n, m, s, e, it, e1);
    if rest.Some? {
      var sc := StageCalls(stages, s, hooks, n, m, e, it, e1);
      assert LaunchRun(model, stages, hooks, n, m, s, e, it).value.calls == sc + rest.value.calls;
      StageOnSchedule(stages, s, hooks, n, m, e, it, e1);
      OnScheduleAppend(stages, n, sc, rest.value.calls, 0);
    }
  }

  /** The stages a launch loop from aligned counters ran add calls on schedule only, and leave the counters aligned. */
  lemma {:induction false} EntersStageOnSchedule(model: Model, stages: seq<Stage>, hooks: seq<Hook>, n: nat, m: nat,
                                                 s: nat, from: RunEnd, k: nat, at: RunEnd, j: nat)
    requires EntersStage(model, stages, hooks, n, m, s, from, k, at)
    requires Aligned(stages, n, Clock(s, from.epoch, from.iter))
    requires j <= |from.calls| && OnScheduleSince(stages, n, from.calls, j)
    ensures j <= |at.calls| && OnScheduleSince(stages, n, at.calls, j) && Aligned(stages, n, Clock(k, at.epoch, at.iter))
    decreases k - s
  {
    if s < k {
      var e1 := LoopEnd(stages, s, from.epoch).value;
      var r := StageEnd(model, stages, hooks, n, m, s, from, e1);
      StageOnSchedule(stages, s, hooks, n, m, from.epoch, from.iter, e1);
      OnScheduleAppend(stages, n, from.calls, StageCalls(stages, s, hooks, n, m, from.epoch, from.iter, e1), j);
      AlignedNextStage(stages, n, Clock(s, from.epoch, from.iter), e1, r.iter);
      EntersStageOnSchedule(model, stages, hooks, n, m, s + 1, r, k, at, j);
    }
  }

  /** A launch loop that stopped, run from aligned counters, added calls on schedule only. */
  lemma StoppedLaunchOnSchedule(model: Model, stages: seq<Stage>, hooks: seq<Hook>, n: nat, m: nat, hasVal: bool, fuel: nat,
                                s0: nat, from: RunEnd, k: nat, out: Outcome, e: nat, it: nat, t: seq<Call>, l: Output, j: nat)
    requires k < |stages|
    requires exists r: RunEnd ::
      EntersStage(model, stages, hooks, n, m, s0, from, k, r) &&
      Stopped(model, stages, hooks, n, m, hasVal, fuel, k, r.epoch, r.iter, r.calls, r.log, out, e, it, t, l)
    requires Aligned(stages, n, Clock(s0, from.epoch, from.iter)) && j <= |from.calls| && OnScheduleSince(stages, n, from.calls, j)
    ensures OnScheduleSince(stages, n, t, j)
  {
    var r: RunEnd :| EntersStage(model, stages, hooks, n, m, s0, from, k, r) &&
      Stopped(model, stages, hooks, n, m, hasVal, fuel, k, r.epoch, r.iter, r.calls, r.log, out, e, it, t, l);
    EntersStageOnSchedule(model, stages, hooks, n, m, s0, from, k, r, j);
    StoppedOnSchedule(model, stages, hooks, n, m, hasVal, fuel, k, r.epoch, r.iter, r.calls, r.log, out, e, it, t, l, j);
  }

  /** A stage that stopped from aligned counters added calls on schedule only. */
  lemma StoppedOnSchedule(model: Model, stages: seq<Stage>, hooks: seq<Hook>, n: nat, m: nat, hasVal: bool, fuel: nat,
                          s: nat, e0: nat, it0: nat, t0: seq<Call>, l0: Output, out: Outcome,
                          e: nat, it: nat, t: seq<Call>, l: Output, j: nat)
    requires s < |stages| && Stopped(model, stages, hooks, n, m, hasVal, fuel, s, e0, it0, t0, l0, out, e, it, t, l)
    requires Aligned(stages, n, Clock(s, e0, it0)) && j <= |t0| && OnScheduleSince(stages, n, t0, j)
    ensures j <= |t| && OnScheduleSince(stages, n, t, j)
  {
    var before := Dispatch(hooks, BeforeStage, Clock(s, e0, it0));
    if !(out.Raised? && out.error == OptimizerTypeError) {
      DispatchOnSchedule(stages, n, hooks, BeforeStage, Clock(s, e0, it0));
      OnScheduleAppend(stages, n, t0, before, j);
    }
    if out == OutOfFuel {
      StageLoopOnSchedule(stages, s, hooks, n, m, e0, it0, e);
      OnScheduleAppend(stages, n, t0 + before, StageLoopCalls(stages, s, hooks, n, m, e0, it0, e), j);
    } else if out == Raised(MissingValLoader) {
      var it1 := it0 + Times(n, e - 1 - e0);
      var loop := StageLoopCalls(stages, s, hooks, n, m, e0, it0, e - 1);
      StageLoopOnSchedule(stages, s, hooks, n, m, e0, it0, e - 1);
      AlignedAdvance(stages, n, Clock(s, e0, it0), e - 1, it1);
      TrainEpochOnSchedule(stages, n, hooks, Clock(s, e - 1, it1));
      OnScheduleAppend(stages, n, t0 + before, loop, j);
      OnScheduleAppend(stages, n, t0 + before + loop, TrainEpochCalls(hooks, n, Clock(s, e - 1, it1)), j);
      assert t == t0 + before + loop + TrainEpochCalls(hooks, n, Clock(s, e - 1, it1));
    }
  }

  // --------------------------------------------------------------- registry

  function HookOf(arg: HookArg): Hook
    requires !arg.NotAHook?
  {
    if arg.HookObject? then arg.hook else arg.built
  }

  /** What `register_hook` leaves behind: the exception it raised, if any, the registry, and the `on_register` calls made. */
  datatype Registration = Registration(err: Option<EngineError>, hooks: seq<Hook>, calls: seq<Call>)

  /**
   * `register_hook(arg, before)` stated on values: the type check, the
   * duplicate check, `on_register`, the hook appended, and then, when
   * `before` is given, either the not-found error (the hook stays
   * appended) or the hook placed at the position `before` held. Naming
   * the new hook itself as `before` leaves it appended.
   */
  function Register(hooks: seq<Hook>, arg: HookArg, before: Option<string>, at: Clock): (r: Registration)
    ensures r.calls == [] ==> r.err.Some? && r.hooks == hooks
    ensures |r.calls| <= 1
  {
    if arg.NotAHook? then Registration(Some(HookTypeError), hooks, [])
    else
      var h := HookOf(arg);
      if Registered(hooks, h.name) then Registration(Some(HookExists(h.name)), hooks, [])
      else
        var calls := [Call(h.name, OnRegister, at)];
        if before.None? || before.value == h.name then Registration(None, hooks + [h], calls)
        else if !Registered(hooks, before.value) then Registration(Some(HookNotFound(before.value)), hooks + [h], calls)
        else Registration(None, InsertAt(hooks, IndexOf(hooks, before.value), h), calls)
  }

  /**
   * Registration keeps the names unique; the two early errors change
   * nothing; otherwise `on_register` runs once, the other hooks keep their
   * order, and a known `before` ends up immediately behind the new hook.
   */
  lemma RegisterSpec(hooks: seq<Hook>, arg: HookArg, before: Option<string>, at: Clock)
    requires UniqueNames(hooks)
    ensures UniqueNames(Register(hooks, arg, before, at).hooks)
    ensures arg.NotAHook? ==> Register(hooks, arg, before, at) == Registration(Some(HookTypeError), hooks, [])
    ensures !arg.NotAHook? && Registered(hooks, HookOf(arg).name) ==>
      Register(hooks, arg, before, at) == Registration(Some(HookExists(HookOf(arg).name)), hooks, [])
    ensures !arg.NotAHook? && !Registered(hooks, HookOf(arg).name) ==>
      var r := Register(hooks, arg, before, at);
      && r.calls == [Call(HookOf(arg).name, OnRegister, at)]
      && |r.hooks| == |hooks| + 1 && Registered(r.hooks, HookOf(arg).name)
      && Without(r.hooks, HookOf(arg).name) == hooks
    ensures !arg.NotAHook? && !Registered(hooks, HookOf(arg).name) && before.Some? && before.value != HookOf(arg).name ==>
      var r := Register(hooks, arg, before, at);
      (r.err.None? <==> Registered(hooks, before.value)) &&
      (r.err.Some? ==> r.err == Some(HookNotFound(before.value)) && r.hooks == hooks + [HookOf(arg)]) &&
      (r.err.None? ==> exists i :: 0 <= i < |hooks| && r.hooks[i] == HookOf(arg) && r.hooks[i + 1].name == before.value)
    ensures !arg.NotAHook? && !Registered(hooks, HookOf(arg).name) && (before.None? || before.value == HookOf(arg).name) ==>
      Register(hooks, arg, before, at).err.None? && Register(hooks, arg, before, at).hooks == hooks + [HookOf(arg)]
  {
    if !arg.NotAHook? && !Registered(hooks, HookOf(arg).name) {
      var h := HookOf(arg);
      var r := Register(hooks, arg, before, at);
      assert forall k :: 0 <= k < |hooks| ==> hooks[k].name != h.name;
      if before.Some? && before.value != h.name && Registered(hooks, before.value) {
        InsertBeforeSpec(hooks, h, before.value);
        var i := IndexOf(hooks, before.value);
        assert r.hooks[i] == h;
      } else {
        assert InsertAt(hooks, |hooks|, h) == hooks + [h];
        WithoutInsert(hooks, |hooks|, h);
        AppendUnique(hooks, h);
      }
      assert r.hooks[IndexOf(r.hooks, h.name)] == h by {
        assert Registered(r.hooks, h.name) by {
          if before.Some? && before.value != h.name && Registered(hooks, before.value) {
            assert r.hooks[IndexOf(hooks, before.value)].name == h.name;
          } else {
            assert r.hooks[|hooks|].name == h.name;
          }
        }
      }
    }
  }

  predicate AllHooks(args: seq<HookArg>)
  {
    forall i :: 0 <= i < |args| ==> !args[i].NotAHook?
  }

  function HooksOf(args: seq<HookArg>): (r: seq<Hook>)
    requires AllHooks(args)
    ensures |r| == |args| && forall i :: 0 <= i < |args| ==> r[i] == HookOf(args[i])
  {
    if args == [] then [] else [HookOf(args[0])] + HooksOf(args[1..])
  }

  /** The `on_register` calls of registering `hs` in order. */
  function RegisterCalls(hs: seq<Hook>, at: Clock): seq<Call>
  {
    if hs == [] then [] else [Call(hs[0].name, OnRegister, at)] + RegisterCalls(hs[1..], at)
  }

  /** `calls` happened first, then `r`. */
  function Then(calls: seq<Call>, r: Registration): Registration
  {
    Registration(r.err, r.hooks, calls + r.calls)
  }

  /** The constructor's loop over `hooks`: `register_hook` on each in turn, stopping at the first exception. */
  function RegisterAll(hooks: seq<Hook>, args: seq<HookArg>, at: Clock): Registration
    decreases |args|
  {
    if args == [] then Registration(None, hooks, [])
    else
      var r := Register(hooks, args[0], None, at);
      if r.err.Some? then r else Then(r.calls, RegisterAll(r.hooks, args[1..], at))
  }

  lemma HooksOfCons(a: HookArg, rest: seq<HookArg>)
    requires !a.NotAHook? && AllHooks(rest)
    ensures AllHooks([a] + rest) && HooksOf([a] + rest) == [HookOf(a)] + HooksOf(rest)
  {
    assert ([a] + rest)[1..] == rest;
  }

  lemma RegisterCallsCons(h: Hook, hs: seq<Hook>, at: Clock)
    ensures RegisterCalls([h] + hs, at) == [Call(h.name, OnRegister, at)] + RegisterCalls(hs, at)
  {
    assert ([h] + hs)[1..] == hs;
  }

  /** A registry extended by a name it already holds has a duplicate. */
  lemma DuplicateName(hooks: seq<Hook>, h: Hook, rest: seq<Hook>)
    requires Registered(hooks, h.name)
    ensures !UniqueNames(hooks + ([h] + rest))
  {
    var j :| 0 <= j < |hooks| && hooks[j].name == h.name;
    var r := hooks + ([h] + rest);
    assert r[j] == hooks[j] && r[|hooks|] == h;
    assert NameAt(r, j) == NameAt(r, |hooks|);
  }

  /**
   * Registering a list succeeds exactly when every entry is a hook and the
   * names, old and new, are all distinct; it then appends the hooks in
   * list order after one `on_register` each. A failure stops at the first
   * entry whose registration fails, with the entries before it registered.
   */
  lemma {:induction false} RegisterAllSpec(hooks: seq<Hook>, args: seq<HookArg>, at: Clock)
    requires UniqueNames(hooks)
    ensures UniqueNames(RegisterAll(hooks, args, at).hooks)
    ensures RegisterAll(hooks, args, at).err.None? <==> AllHooks(args) && UniqueNames(hooks + HooksOf(args))
    ensures RegisterAll(hooks, args, at).err.None? ==>
      RegisterAll(hooks, args, at).hooks == hooks + HooksOf(args) &&
      RegisterAll(hooks, args, at).calls == RegisterCalls(HooksOf(args), at)
    ensures var r := RegisterAll(hooks, args, at);
      r.err.Some? ==>
        exists i :: 0 <= i < |args| && AllHooks(args[..i]) &&
          r.hooks == hooks + HooksOf(args[..i]) && r.calls == RegisterCalls(HooksOf(args[..i]), at) &&
          Register(r.hooks, args[i], None, at).err == r.err
  {
    RegisterAllUnique(hooks, args, at);
    RegisterAllSuccess(hooks, args, at);
    RegisterAllFailure(hooks, args, at);
  }

  lemma {:induction false} RegisterAllUnique(hooks: seq<Hook>, args: seq<HookArg>, at: Clock)
    requires UniqueNames(hooks)
    ensures UniqueNames(RegisterAll(hooks, args, at).hooks)
    decreases |args|
  {
    if args != [] {
      var r0 := Register(hooks, args[0], None, at);
      RegisterSpec(hooks, args[0], None, at);
      if r0.err.None? {
        RegisterAllUnique(r0.hooks, args[1..], at);
      }
    }
  }

  lemma {:induction false} RegisterAllSuccess(hooks: seq<Hook>, args: seq<HookArg>, at: Clock)
    requires UniqueNames(hooks)
    ensures RegisterAll(hooks, args, at).err.None? <==> AllHooks(args) && UniqueNames(hooks + HooksOf(args))
    ensures RegisterAll(hooks, args, at).err.None? ==>
      RegisterAll(hooks, args, at).hooks == hooks + HooksOf(args) &&
      RegisterAll(hooks, args, at).calls == RegisterCalls(HooksOf(args), at)
    decreases |args|
  {
    if args == [] {
      assert hooks + HooksOf(args) == hooks;
    } else {
      var a, rest := args[0], args[1..];
      assert args == [a] + rest;
      var r0 := Register(hooks, a, None, at);
      RegisterSpec(hooks, a, None, at);
      if r0.err.Some? {
        if AllHooks(args) {
          HooksOfCons(a, rest);
          DuplicateName(hooks, HookOf(a), HooksOf(rest));
        }
      } else {
        var h := HookOf(a);
        RegisterAllSuccess(hooks + [h], rest, at);
        if AllHooks(rest) {
          HooksOfCons(a, rest);
          Assoc(hooks, [h], HooksOf(rest));
          RegisterCallsCons(h, HooksOf(rest), at);
        } else {
          assert !AllHooks(args) by {
            var k :| 0 <= k < |rest| && rest[k].NotAHook?;
            assert args[k + 1] == rest[k];
          }
        }
      }
    }
  }

  lemma {:induction false} RegisterAllFailure(hooks: seq<Hook>, args: seq<HookArg>, at: Clock)
    requires UniqueNames(hooks)
    ensures var r := RegisterAll(hooks, args, at);
      r.err.Some? ==>
        exists i :: 0 <= i < |args| && AllHooks(args[..i]) &&
          r.hooks == hooks + HooksOf(args[..i]) && r.calls == RegisterCalls(HooksOf(args[..i]), at) &&
          Register(r.hooks, args[i], None, at).err == r.err
    decreases |args|
  {
    if args != [] {
      var r := RegisterAll(hooks, args, at);
      var a, rest := args[0], args[1..];
      var r0 := Register(hooks, a, None, at);
      RegisterPlain(hooks, a, at);
      if r0.err.Some? {
        assert args[..0] == [] && hooks + HooksOf(args[..0]) == hooks;
        FailureWitness(hooks, args, at, 0, r);
      } else {
        var h := HookOf(a);
        RegisterAllFailure(hooks + [h], rest, at);
        var r1 := RegisterAll(hooks + [h], rest, at);
        if r1.err.Some? {
          var i' :| 0 <= i' < |rest| && AllHooks(rest[..i']) &&
            r1.hooks == hooks + [h] + HooksOf(rest[..i']) && r1.calls == RegisterCalls(HooksOf(rest[..i']), at) &&
            Register(r1.hooks, rest[i'], None, at).err == r1.err;
          assert args == [a] + rest;
          FailureShift(hooks, a, rest, i', r1.hooks, r1.calls, at);
          assert r == Then([Call(h.name, OnRegister, at)], r1);
          FailureWitness(hooks, args, at, i' + 1, r);
        }
      }
    }
  }

  /** `register_hook` with no `before`: when it succeeds the hook is appended and its `init` called. */
  lemma RegisterPlain(hooks: seq<Hook>, a: HookArg, at: Clock)
    requires UniqueNames(hooks)
    ensures var r0 := Register(hooks, a, None, at);
      r0.err.None? ==>
        && !a.NotAHook? && UniqueNames(hooks + [HookOf(a)])
        && r0.hooks == hooks + [HookOf(a)] && r0.calls == [Call(HookOf(a).name, OnRegister, at)]
  {
    RegisterSpec(hooks, a, None, at);
  }

  lemma FailureWitness(hooks: seq<Hook>, args: seq<HookArg>, at: Clock, i: nat, r: Registration)
    requires i < |args| && AllHooks(args[..i])
    requires r.hooks == hooks + HooksOf(args[..i]) && r.calls == RegisterCalls(HooksOf(args[..i]), at)
    requires Register(r.hooks, args[i], None, at).err == r.err
    ensures exists i ::
      && 0 <= i < |args| && AllHooks(args[..i])
      && r.hooks == hooks + HooksOf(args[..i]) && r.calls == RegisterCalls(HooksOf(args[..i]), at)
      && Register(r.hooks, args[i], None, at).err == r.err
  {
  }

  /** A failure `i'` entries into `rest` is a failure `i' + 1` entries into `[a] + rest`. */
  lemma FailureShift(hooks: seq<Hook>, a: HookArg, rest: seq<HookArg>, i': nat, hs: seq<Hook>, calls: seq<Call>, at: Clock)
    requires !a.NotAHook? && i' < |rest| && AllHooks(rest[..i'])
    requires hs == hooks + [HookOf(a)] + HooksOf(rest[..i'])
    requires calls == RegisterCalls(HooksOf(rest[..i']), at)
    ensures var args := [a] + rest;
      && AllHooks(args[..i' + 1]) && args[i' + 1] == rest[i']
      && hs == hooks + HooksOf(args[..i' + 1])
      && [Call(HookOf(a).name, OnRegister, at)] + calls == RegisterCalls(HooksOf(args[..i' + 1]), at)
  {
    var args := [a] + rest;
    assert args[..i' + 1] == [a] + rest[..i'];
    HooksOfCons(a, rest[..i']);
    Assoc(hooks, [HookOf(a)], HooksOf(rest[..i']));
    RegisterCallsCons(HookOf(a), HooksOf(rest[..i']), at);
  }

  lemma RegisterAllStep(hooks: seq<Hook>, args: seq<HookArg>, i: nat, at: Clock)
    requires i < |args|
    ensures var r := Register(hooks, args[i], None, at);
      r.err.Some? ==> RegisterAll(hooks, args[i..], at) == r
    ensures var r := Register(hooks, args[i], None, at);
      r.err.None? ==> RegisterAll(hooks, args[i..], at) == Then(r.calls, RegisterAll(r.hooks, args[i + 1..], at))
  {
    assert args[i..][0] == args[i] && args[i..][1..] == args[i + 1..];
  }

  /** A name missing after appending `h` was missing before and is not `h`'s. */
  lemma AppendedNotFound(H0: seq<Hook>, h: Hook, b: string)
    requires !Registered(H0 + [h], b)
    ensures !Registered(H0, b) && b != h.name
  {
    forall j | 0 <= j < |H0|
      ensures H0[j].name != b
    {
      assert (H0 + [h])[j] == H0[j];
    }
    assert (H0 + [h])[|H0|] == h;
  }

  /**
   * Moving the keys from the position of `b` onwards, except the new last
   * one, to the end puts `h` where `b` stood; when `b` is `h` itself
   * nothing moves.
   */
  lemma PlacedBefore(H0: seq<Hook>, h: Hook, b: string, idx: nat, moved: seq<Hook>)
    requires !Registered(H0, h.name) && Registered(H0 + [h], b) && idx == IndexOf(H0 + [h], b)
    requires moved == (H0 + [h])[..idx] + [(H0 + [h])[|H0|]] + (H0 + [h])[idx..|H0|]
    ensures b != h.name ==> Registered(H0, b) && moved == InsertAt(H0, IndexOf(H0, b), h)
    ensures b == h.name ==> moved == H0 + [h]
  {
    var hs := H0 + [h];
    assert hs[|H0|] == h;
    assert hs[..idx] == H0[..idx] && hs[idx..|H0|] == H0[idx..];
    if b != h.name {
      assert idx != |H0|;
      assert hs[idx] == H0[idx];
      forall q | 0 <= q < idx ensures H0[q].name != b {
        assert hs[q] == H0[q];
      }
      IndexOfAt(H0, idx, b);
    } else {
      forall q | 0 <= q < |H0| ensures hs[q].name != h.name {
        assert hs[q] == H0[q];
      }
      IndexOfAt(hs, |H0|, h.name);
      assert H0[..|H0|] == H0 && H0[|H0|..] == [];
    }
  }

  lemma ThenThen(a: seq<Call>, b: seq<Call>, r: Registration)
    ensures Then(a, Then(b, r)) == Then(a + b, r)
  {
    Assoc(a, b, r.calls);
  }

  // ------------------------------------------------------------------ engine

  class Engine {
    const model: Model
    const stages: seq<Stage>
    /** `len(data_loaders['train'])`. */
    const trainBatches: nat
    /** `len(data_loaders['val'])`, None when there is no validation loader. */
    const valBatches: Option<nat>

    /** `_hooks`, in registry order. */
    var hooks: seq<Hook>
    var maxStages: nat
    var maxEpochs: nat
    var maxIters: nat
    var startIter: nat
    var stage: nat
    var epoch: nat
    var iter: nat
    var optimizer: Option<Optimizer>
    /** `self.losses` of the latest training iteration. */
    var losses: Output
    /** Every `buffer.update(key, value)` made so far, in order. */
    var log: Output
    /** Every hook callback made so far, in order. */
    ghost var trace: seq<Call>

    ghost predicate Valid()
      reads this`maxStages, this`maxEpochs, this`maxIters, this`startIter, this`stage, this`hooks
    {
      && maxStages == |stages|
      && maxEpochs == MaxEpochs(stages)
      && maxIters == Times(trainBatches, maxEpochs)
      && startIter == 0
      && stage <= |stages|
      && UniqueNames(hooks)
    }

    /** Batches per validation epoch in a run that validates. */
    function ValCount(): nat
    {
      if valBatches.Some? then valBatches.value else 0
    }

    /** `Engine(model, data_loaders, stages)` with no hooks; hooks in the constructor go through `RegisterHooks`. */
    constructor (model: Model, stages: seq<Stage>, trainBatches: nat, valBatches: Option<nat>)
      ensures Valid()
      ensures forall mo, e, b :: this.model(mo, e, b) == model(mo, e, b)
      ensures this.stages == stages && this.trainBatches == trainBatches && this.valBatches == valBatches
      ensures hooks == [] && trace == [] && log == [] && losses == [] && optimizer == None
      ensures stage == 0 && epoch == 0 && iter == 0
    {
      this.model := model;
      this.stages := stages;
      this.trainBatches := trainBatches;
      this.valBatches := valBatches;
      hooks := [];
      trace := [];
      log := [];
      losses := [];
      optimizer := None;
      new;
      FlushStates();
    }

    /**
     * `flush_states`: the derived totals from the schedule, every counter
     * back to 0.
     */
    method FlushStates()
      modifies this`maxStages, this`maxEpochs, this`maxIters, this`startIter, this`stage, this`epoch, this`iter
      ensures UniqueNames(hooks) ==> Valid()
      ensures maxStages == |stages| && maxEpochs == MaxEpochs(stages)
      ensures maxIters == trainBatches * MaxEpochs(stages)
      ensures startIter == 0 && stage == 0 && epoch == 0 && iter == 0
    {
      maxStages := |stages|;
      maxEpochs := CumEpochs(stages, |stages|);
      maxIters := trainBatches * maxEpochs;
      startIter := 0;
      TimesIsMul(trainBatches, maxEpochs);
      stage := 0;
      epoch := 0;
      iter := 0;
    }

    /**
     * `iter_in_stage`: the iteration counted from the start of the current
     * stage; never negative while the counters are on schedule.
     */
    function IterInStage(): (r: int)
      reads this`stage, this`epoch, this`iter
      requires stage <= |stages|
      ensures r == iter - trainBatches * CumEpochs(stages, stage)
      ensures OnSchedule(stages, trainBatches, Clock(stage, epoch, iter)) ==> r >= 0
    {
      StageIterOffsetIsCum(stages, trainBatches, stage);
      OnScheduleCounters(stages, trainBatches, Clock(stage, epoch, iter));
      iter - StageIterOffset(stages, trainBatches, stage)
    }

    /**
     * `iter_in_epoch`: the iteration counted from the start of the current
     * epoch; within the epoch's batches while the counters are on
     * schedule, and zero between epochs.
     */
    function IterInEpoch(): (r: int)
      reads this`stage, this`epoch, this`iter
      ensures OnSchedule(stages, trainBatches, Clock(stage, epoch, iter)) ==> 0 <= r <= trainBatches
      ensures Aligned(stages, trainBatches, Clock(stage, epoch, iter)) ==> r == 0
    {
      OnScheduleCounters(stages, trainBatches, Clock(stage, epoch, iter));
      TimesIsMul(trainBatches, epoch);
      iter - trainBatches * epoch
    }

    /** `_call_hook(event)`: every registered hook receives `event`, in registry order. */
    method CallHook(event: Event)
      modifies this`trace
      ensures trace == old(trace) + Dispatch(hooks, event, Clock(stage, epoch, iter))
    {
      var registry := hooks;
      ghost var at := Clock(stage, epoch, iter);
      ghost var t := trace;
      var i := 0;
      while i < |registry|
        invariant 0 <= i <= |registry|
        invariant t == old(trace) + Dispatch(registry[..i], event, at)
        modifies {}
      {
        assert registry[..i + 1] == registry[..i] + [registry[i]];
        DispatchSnoc(registry[..i], registry[i], event, at);
        t := t + [Call(registry[i].name, event, at)];
        i := i + 1;
      }
      assert registry[..i] == registry;
      trace := t;
    }

    /**
     * `register_hook(hook, before)`, which is `Register` on the registry:
     * when `before` names a registered hook, the source moves every key
     * from `before` onwards, except the new one, to the end in order.
     */
    method RegisterHook(arg: HookArg, before: Option<string>) returns (err: Option<EngineError>)
      requires Valid()
      modifies this`hooks, this`trace
      ensures Valid()
      ensures var r := Register(old(hooks), arg, before, Clock(stage, epoch, iter));
        err == r.err && hooks == r.hooks && trace == old(trace) + r.calls
    {
      RegisterSpec(hooks, arg, before, Clock(stage, epoch, iter));
      if arg.NotAHook? {
        return Some(HookTypeError);
      }
      var h := if arg.HookObject? then arg.hook else arg.built;
      if Registered(hooks, h.name) {
        return Some(HookExists(h.name));
      }
      trace := trace + [Call(h.name, OnRegister, Clock(stage, epoch, iter))];
      ghost var H0 := hooks;
      AppendUnique(hooks, h);
      hooks := hooks + [h];
      err := None;
      if before.Some? {
        if !Registered(hooks, before.value) {
          AppendedNotFound(H0, h, before.value);
          return Some(HookNotFound(before.value));
        }
        var idx := IndexOf(hooks, before.value);
        // The source calls `move_to_end()` on each hook object rather than
        // `self._hooks.move_to_end(key)`; this follows the documented intent.
        MoveKeysToEnd(idx);
        PlacedBefore(H0, h, before.value, idx, hooks);
      }
    }

    /**
     * The reordering loop of `register_hook`: each key from position `idx`
     * up to, not including, the last is moved to the end in turn, which
     * brings the last key to position `idx`.
     */
    method MoveKeysToEnd(idx: nat)
      requires UniqueNames(hooks) && idx < |hooks|
      modifies this`hooks
      ensures hooks == old(hooks)[..idx] + [old(hooks)[|old(hooks)| - 1]] + old(hooks)[idx..|old(hooks)| - 1]
    {
      var keys := hooks;
      var last := |hooks| - 1;
      var i := idx;
      while i < last
        invariant idx <= i <= last && last == |keys| - 1
        invariant hooks == Moved(keys, idx, i)
      {
        MovedNext(keys, idx, i);
        hooks := MoveToEnd(hooks, keys[i].name);
        i := i + 1;
      }
      MovedEnd(keys, idx);
    }

    /**
     * The hooks handed to the constructor, registered in order without
     * `before`: `RegisterAll`.
     */
    method RegisterHooks(args: seq<HookArg>) returns (err: Option<EngineError>)
      requires Valid()
      modifies this`hooks, this`trace
      ensures Valid()
      ensures var r := RegisterAll(old(hooks), args, Clock(stage, epoch, iter));
        err == r.err && hooks == r.hooks && trace == old(trace) + r.calls
    {
      ghost var at := Clock(stage, epoch, iter);
      ghost var done: seq<Call> := [];
      var i := 0;
      assert args[0..] == args;
      assert Then([], RegisterAll(hooks, args, at)) == RegisterAll(hooks, args, at);
      while i < |args|
        invariant 0 <= i <= |args|
        invariant Valid()
        invariant trace == old(trace) + done
        invariant RegisterAll(old(hooks), args, at) == Then(done, RegisterAll(hooks, args[i..], at))
      {
        ghost var hs := hooks;
        ghost var r := Register(hs, args[i], None, at);
        RegisterAllStep(hs, args, i, at);
        err := RegisterHook(args[i], None);
        Assoc(old(trace), done, r.calls);
        if err.Some? {
          return;
        }
        ThenThen(done, r.calls, RegisterAll(hooks, args[i + 1..], at));
        done := done + r.calls;
        i := i + 1;
      }
      assert done + [] == done;
      err := None;
    }

    /** `build_optimizer`: the optimizer `ResolveOptimizer` picks, or a TypeError that changes nothing. */
    method BuildOptimizer(arg: OptimizerArg) returns (err: Option<EngineError>)
      modifies this`optimizer
      ensures ResolveOptimizer(arg).Ok? ==> err.None? && optimizer == Some(ResolveOptimizer(arg).value)
      ensures ResolveOptimizer(arg).Err? ==> err == Some(OptimizerTypeError) && optimizer == old(optimizer)
    {
      match arg
      case OptimizerConfig(config) =>
        optimizer := Some(BuiltOptimizer(config));
        err := None;
      case OptimizerObject(name, hasZeroGrad, hasStep) =>
        if hasZeroGrad && hasStep {
          optimizer := Some(GivenOptimizer(name));
          err := None;
        } else {
          err := Some(OptimizerTypeError);
        }
    }

    /**
     * `train_iter` on batch `b`: the `before_train_iter` hooks, the model,
     * the losses, one buffer write per output key, the `after_train_iter`
     * hooks, and only then `iter + 1`.
     */
    method TrainIter(b: nat)
      modifies this`trace, this`losses, this`log, this`iter
      ensures trace == old(trace) + Dispatch(hooks, BeforeTrainIter, Clock(old(stage), old(epoch), old(iter))) + Dispatch(hooks, AfterTrainIter, Clock(old(stage), old(epoch), old(iter)))
      ensures losses == Losses(model(Train, epoch, b))
      ensures log == old(log) + model(Train, epoch, b)
      ensures iter == old(iter) + 1
    {
      CallHook(BeforeTrainIter);
      var output := model(Train, epoch, b);
      var l := LossEntries(output);
      losses := Upsert(l, "loss", SumValues(l));
      var written := log;
      for k := 0 to |output|
        invariant written == log + output[..k]
        modifies {}
      {
        assert output[..k + 1] == output[..k] + [output[k]];
        written := written + [output[k]];
      }
      assert output[..|output|] == output;
      log := written;
      CallHook(AfterTrainIter);
      iter := iter + 1;
    }

    /** `val_iter` on batch `b`: hooks around the model call and its buffer writes; no counter moves. */
    method ValIter(b: nat)
      modifies this`trace, this`log
      ensures trace == old(trace) + Dispatch(hooks, BeforeValIter, Clock(stage, epoch, iter)) + Dispatch(hooks, AfterValIter, Clock(stage, epoch, iter))
      ensures log == old(log) + model(Val, epoch, b)
    {
      CallHook(BeforeValIter);
      var output := model(Val, epoch, b);
      var written := log;
      for k := 0 to |output|
        invariant written == log + output[..k]
        modifies {}
      {
        assert output[..k + 1] == output[..k] + [output[k]];
        written := written + [output[k]];
      }
      assert output[..|output|] == output;
      log := written;
      CallHook(AfterValIter);
    }

    /** `train_epoch`: one `train_iter` per training batch between the epoch hooks, then `epoch + 1`. */
    method TrainEpoch()
      modifies this`trace, this`losses, this`log, this`iter, this`epoch
      ensures trace == old(trace) + TrainEpochCalls(hooks, trainBatches, Clock(old(stage), old(epoch), old(iter)))
      ensures log == old(log) + EpochLog(model, Train, old(epoch), trainBatches)
      ensures trainBatches > 0 ==> losses == Losses(model(Train, old(epoch), trainBatches - 1))
      ensures trainBatches == 0 ==> losses == old(losses)
      ensures epoch == old(epoch) + 1 && iter == old(iter) + trainBatches
    {
      ghost var c, t := Clock(stage, epoch, iter), trace;
      CallHook(BeforeTrainEpoch);
      ghost var t1 := trace;
      TrainBatches();
      ghost var t2, c2 := trace, Clock(stage, epoch, iter);
      CallHook(AfterTrainEpoch);
      TrainEpochEnd(hooks, trainBatches, c, c2, t, t1, t2, trace);
      epoch := epoch + 1;
    }

    /** The batch loop of `train_epoch`. */
    method TrainBatches()
      modifies this`trace, this`losses, this`log, this`iter
      ensures trace == old(trace) + TrainIterCalls(hooks, trainBatches, Clock(stage, epoch, old(iter)))
      ensures log == old(log) + EpochLog(model, Train, epoch, trainBatches)
      ensures trainBatches > 0 ==> losses == Losses(model(Train, epoch, trainBatches - 1))
      ensures trainBatches == 0 ==> losses == old(losses)
      ensures iter == old(iter) + trainBatches
    {
      ghost var c, t0, l, lo := Clock(stage, epoch, iter), trace, log, losses;
      var b := 0;
      while b < trainBatches
        invariant 0 <= b <= trainBatches
        invariant iter == c.iter + b
        invariant trace == t0 + TrainIterCalls(hooks, b, c)
        invariant log == l + EpochLog(model, Train, epoch, b)
        invariant b > 0 ==> losses == Losses(model(Train, epoch, b - 1))
        invariant b == 0 ==> losses == lo
      {
        TrainIter(b);
        TrainIterNext(t0, hooks, b, c, trace);
        EpochLogNext(l, model, Train, epoch, b, log);
        b := b + 1;
      }
    }

    /**
     * `val_epoch`: one `val_iter` per validation batch between the epoch
     * hooks. Without a validation loader the lookup fails before any hook
     * runs.
     */
    method ValEpoch() returns (err: Option<EngineError>)
      modifies this`trace, this`log
      ensures err.Some? <==> valBatches.None?
      ensures err.Some? ==> err.value == MissingValLoader && trace == old(trace) && log == old(log)
      ensures err.None? ==> trace == old(trace) + ValEpochCalls(hooks, valBatches.value, Clock(stage, epoch, iter))
      ensures err.None? ==> log == old(log) + EpochLog(model, Val, epoch, valBatches.value)
    {
      if valBatches.None? {
        return Some(MissingValLoader);
      }
      var m := valBatches.value;
      ghost var c, t, l := Clock(stage, epoch, iter), trace, log;
      CallHook(BeforeValEpoch);
      ghost var t0 := trace;
      var b := 0;
      while b < m
        invariant 0 <= b <= m
        invariant trace == t0 + ValIterCalls(hooks, b, c)
        invariant log == l + EpochLog(model, Val, c.epoch, b)
      {
        ValIter(b);
        ValIterStep(t0, hooks, b, c);
        EpochLogStep(l, model, Val, c.epoch, b);
        b := b + 1;
      }
      CallHook(AfterValEpoch);
      ValEpochSplit(t, hooks, m, c);
      err := None;
    }

    /**
     * One pass of the `run_stage` loop body: a training epoch, then a
     * validation epoch when `Validates` says so.
     */
    method StageEpoch() returns (err: Option<EngineError>)
      requires stage < |stages|
      modifies this`trace, this`losses, this`log, this`iter, this`epoch
      ensures epoch == old(epoch) + 1 && iter == old(iter) + trainBatches
      ensures err.Some? <==> Validates(stages, stage, epoch) && valBatches.None?
      ensures err.Some? ==> err.value == MissingValLoader
      ensures err.None? ==> trace == old(trace) + EpochCalls(stages, stage, hooks, trainBatches, ValCount(), old(epoch), old(iter))
      ensures err.None? ==> log == old(log) + EpochWrites(model, stages, stage, trainBatches, ValCount(), old(epoch))
      ensures err.Some? ==> trace == old(trace) + TrainEpochCalls(hooks, trainBatches, Clock(stage, old(epoch), old(iter)))
      ensures err.Some? ==> log == old(log) + EpochLog(model, Train, old(epoch), trainBatches)
      ensures trainBatches > 0 ==> losses == Losses(model(Train, old(epoch), trainBatches - 1))
      ensures trainBatches == 0 ==> losses == old(losses)
    {
      ghost var t, l, e, it := trace, log, epoch, iter;
      TrainEpoch();
      var interval := stages[stage].valInterval;
      if interval > 0 && EpochInStage(stages, epoch) % interval == 0 {
        err := ValEpoch();
        if err.None? {
          EpochWithValidation(t, l, model, stages, stage, hooks, trainBatches, ValCount(), e, it, trace, log);
        }
      } else {
        EpochWithoutValidation(t, l, model, stages, stage, hooks, trainBatches, ValCount(), e, it, trace, log);
        err := None;
      }
    }

    /**
     * One pass of the `run_stage` loop seen from the loop: the calls and
     * writes since the loop was entered at `e0` grow by one epoch, or, when
     * the validation epoch raised, by that pass's training epoch.
     */
    method LoopPass(ghost e0: nat, ghost it0: nat, ghost t0: seq<Call>, ghost l0: Output) returns (err: Option<EngineError>)
      requires stage < |stages| && LoopAt(model, stages, stage, hooks, trainBatches, ValCount(), e0, it0, t0, l0, epoch, iter, trace, log)
      modifies this`trace, this`losses, this`log, this`iter, this`epoch
      ensures epoch == old(epoch) + 1 && iter == old(iter) + trainBatches
      ensures err.Some? <==> Validates(stages, stage, epoch) && valBatches.None?
      ensures err.Some? ==> err.value == MissingValLoader
      ensures err.None? ==> LoopAt(model, stages, stage, hooks, trainBatches, ValCount(), e0, it0, t0, l0, epoch, iter, trace, log)
      ensures err.Some? ==> LoopRaised(model, stages, stage, hooks, trainBatches, ValCount(), valBatches.Some?, e0, it0, t0, l0, epoch, iter, trace, log)
    {
      ghost var t, l, e, it := trace, log, epoch, iter;
      err := RaisingPass(e0, it0, t0, l0);
      if err.None? {
        StageLoopStep(t0, l0, model, stages, stage, hooks, trainBatches, ValCount(), e0, it0, e, it, t, l, trace, log);
      }
    }

    /** `StageEpoch` inside the loop, with a raised validation epoch stated from the loop's entry. */
    method RaisingPass(ghost e0: nat, ghost it0: nat, ghost t0: seq<Call>, ghost l0: Output) returns (err: Option<EngineError>)
      requires stage < |stages| && LoopAt(model, stages, stage, hooks, trainBatches, ValCount(), e0, it0, t0, l0, epoch, iter, trace, log)
      modifies this`trace, this`losses, this`log, this`iter, this`epoch
      ensures epoch == old(epoch) + 1 && iter == old(iter) + trainBatches
      ensures err.Some? <==> Validates(stages, stage, epoch) && valBatches.None?
      ensures err.Some? ==> err.value == MissingValLoader
      ensures err.None? ==> trace == old(trace) + EpochCalls(stages, stage, hooks, trainBatches, ValCount(), old(epoch), old(iter))
      ensures err.None? ==> log == old(log) + EpochWrites(model, stages, stage, trainBatches, ValCount(), old(epoch))
      ensures err.Some? ==> LoopRaised(model, stages, stage, hooks, trainBatches, ValCount(), valBatches.Some?, e0, it0, t0, l0, epoch, iter, trace, log)
    {
      ghost var t, l, e, it := trace, log, epoch, iter;
      err := StageEpoch();
      if err.Some? {
        RaisedLoopStep(t0, l0, model, stages, stage, hooks, trainBatches, ValCount(), valBatches.Some?, e0, it0, e, it, t, l, trace, log);
      }
    }

    /**
     * The `while` loop of `run_stage`, with at most `fuel` passes: train
     * (and maybe validate) while `epoch_in_stage` is below the stage's
     * epoch count. Every epoch it passed kept the loop going; it stops
     * where the loop condition fails, where the fuel runs out, or where a
     * validation epoch finds no loader.
     */
    method StageLoop(fuel: nat) returns (out: Outcome)
      requires stage < |stages|
      modifies this`trace, this`losses, this`log, this`iter, this`epoch
      ensures old(epoch) <= epoch <= old(epoch) + fuel && iter == old(iter) + Times(trainBatches, epoch - old(epoch))
      ensures KeptGoing(stages, stage, old(epoch), epoch)
      ensures out == Finished || out == OutOfFuel || out == Raised(MissingValLoader)
      ensures out == Finished ==> EpochInStage(stages, epoch) >= stages[stage].epochs
      ensures out == OutOfFuel ==> epoch == old(epoch) + fuel && EpochInStage(stages, epoch) < stages[stage].epochs
      ensures out == Finished || out == OutOfFuel ==>
        trace == old(trace) + StageLoopCalls(stages, stage, hooks, trainBatches, ValCount(), old(epoch), old(iter), epoch)
      ensures out == Finished || out == OutOfFuel ==>
        log == old(log) + StageLoopLog(model, stages, stage, trainBatches, ValCount(), old(epoch), epoch)
      ensures out.Raised? ==> LoopRaised(model, stages, stage, hooks, trainBatches, ValCount(), valBatches.Some?,
        old(epoch), old(iter), old(trace), old(log), epoch, iter, trace, log)
    {
      ghost var e0, it0, t0, l0 := epoch, iter, trace, log;
      var k: nat := 0;
      out := Finished;
      while EpochInStage(stages, epoch) < stages[stage].epochs
        invariant out == Finished
        invariant k <= fuel && epoch == e0 + k
        invariant KeptGoing(stages, stage, e0, epoch)
        invariant LoopAt(model, stages, stage, hooks, trainBatches, ValCount(), e0, it0, t0, l0, epoch, iter, trace, log)
        decreases fuel - k
      {
        if k == fuel {
          out := OutOfFuel;
          break;
        }
        var err := LoopPass(e0, it0, t0, l0);
        if err.Some? {
          out := Raised(err.value);
          break;
        }
        k := k + 1;
      }
    }

    /**
     * The `run_stage` loop in terms of `LoopEnd`: it finishes exactly where
     * the loop exits, runs out of fuel only before that, and finishes
     * whenever the exit is within the fuel and no epoch before it needs
     * the missing validation loader.
     */
    method StageLoopExit(fuel: nat) returns (out: Outcome)
      requires stage < |stages|
      modifies this`trace, this`losses, this`log, this`iter, this`epoch
      ensures old(epoch) <= epoch && iter == old(iter) + Times(trainBatches, epoch - old(epoch))
      ensures out == Finished || out == OutOfFuel || out == Raised(MissingValLoader)
      ensures out == Finished ==> LoopEnd(stages, stage, old(epoch)) == Some(epoch)
      ensures out == OutOfFuel ==> (epoch == old(epoch) + fuel &&
        (LoopEnd(stages, stage, old(epoch)).None? || epoch < LoopEnd(stages, stage, old(epoch)).value))
      ensures out.Raised? ==> LoopRaised(model, stages, stage, hooks, trainBatches, ValCount(), valBatches.Some?,
        old(epoch), old(iter), old(trace), old(log), epoch, iter, trace, log)
      ensures out == Finished || out == OutOfFuel ==>
        trace == old(trace) + StageLoopCalls(stages, stage, hooks, trainBatches, ValCount(), old(epoch), old(iter), epoch)
      ensures out == Finished || out == OutOfFuel ==>
        log == old(log) + StageLoopLog(model, stages, stage, trainBatches, ValCount(), old(epoch), epoch)
      ensures (LoopEnd(stages, stage, old(epoch)).Some? && LoopEnd(stages, stage, old(epoch)).value <= old(epoch) + fuel &&
          (valBatches.Some? || NoValidation(stages, stage, old(epoch), LoopEnd(stages, stage, old(epoch)).value))) ==>
        out == Finished
      ensures Aligned(stages, trainBatches, Clock(stage, old(epoch), old(iter))) ==> Aligned(stages, trainBatches, Clock(stage, epoch, iter))
    {
      ghost var c := Clock(stage, epoch, iter);
      out := StageLoop(fuel);
      KeptGoingLoopEnd(stages, stage, c.epoch, epoch);
      if Aligned(stages, trainBatches, c) {
        AlignedAdvance(stages, trainBatches, c, epoch, iter);
      }
    }

    /**
     * `run_stage`, with at most `fuel` passes of its loop. With no stages
     * `epoch_in_stage` fails first; a stage index out of range fails when
     * `cur_stage` is read, which is before the `before_stage` hooks exactly
     * when `epoch_in_stage == 0`. The optimizer is rebuilt iff
     * `epoch_in_stage == 0` on entry; then the hooks, the loop, the hooks
     * again, and `stage + 1`.
     */
    method RunStage(fuel: nat) returns (out: Outcome)
      requires Valid()
      modifies this`trace, this`losses, this`log, this`iter, this`epoch, this`stage, this`optimizer
      ensures Valid()
      ensures out == Raised(StageIndexError) <==> |stages| <= old(stage)
      ensures out == Raised(OptimizerTypeError) <==> (old(stage) < |stages| && EpochInStage(stages, old(epoch)) == 0 &&
        ResolveOptimizer(stages[old(stage)].optimizer).Err?)
      ensures out == Raised(StageIndexError) || out == Raised(OptimizerTypeError) ==>
        stage == old(stage) && epoch == old(epoch) && iter == old(iter) && optimizer == old(optimizer) &&
        log == old(log) && losses == old(losses)
      ensures out == Raised(OptimizerTypeError) || (|stages| <= old(stage) && (|stages| == 0 || EpochInStage(stages, old(epoch)) == 0)) ==>
        trace == old(trace)
      ensures 0 < |stages| <= old(stage) && EpochInStage(stages, old(epoch)) != 0 ==>
        trace == old(trace) + Dispatch(hooks, BeforeStage, Clock(old(stage), old(epoch), old(iter)))
      ensures old(stage) < |stages| && EpochInStage(stages, old(epoch)) == 0 && ResolveOptimizer(stages[old(stage)].optimizer).Ok? ==>
        optimizer == Some(ResolveOptimizer(stages[old(stage)].optimizer).value)
      ensures old(stage) < |stages| && EpochInStage(stages, old(epoch)) != 0 ==> optimizer == old(optimizer)
      ensures out == Finished ==> (old(stage) < |stages| &&
        LoopEnd(stages, old(stage), old(epoch)) == Some(epoch) && stage == old(stage) + 1 &&
        iter == old(iter) + Times(trainBatches, epoch - old(epoch)) &&
        trace == old(trace) + StageCalls(stages, old(stage), hooks, trainBatches, ValCount(), old(epoch), old(iter), epoch) &&
        log == old(log) + StageLoopLog(model, stages, old(stage), trainBatches, ValCount(), old(epoch), epoch))
      ensures out == OutOfFuel ==> (old(stage) < |stages| &&
        epoch == old(epoch) + fuel && stage == old(stage) && iter == old(iter) + Times(trainBatches, fuel) &&
        (LoopEnd(stages, old(stage), old(epoch)).None? || LoopEnd(stages, old(stage), old(epoch)).value > epoch) &&
        trace == old(trace) + Dispatch(hooks, BeforeStage, Clock(old(stage), old(epoch), old(iter))) +
          StageLoopCalls(stages, old(stage), hooks, trainBatches, ValCount(), old(epoch), old(iter), epoch) &&
        log == old(log) + StageLoopLog(model, stages, old(stage), trainBatches, ValCount(), old(epoch), epoch))
      ensures out.Raised? && out.error != StageIndexError && out.error != OptimizerTypeError ==>
        out.error == MissingValLoader && old(stage) < |stages| && stage == old(stage) &&
        LoopRaised(model, stages, old(stage), hooks, trainBatches, ValCount(), valBatches.Some?, old(epoch), old(iter),
          old(trace) + Dispatch(hooks, BeforeStage, Clock(old(stage), old(epoch), old(iter))), old(log), epoch, iter, trace, log)
      ensures Aligned(stages, trainBatches, Clock(old(stage), old(epoch), old(iter))) ==> Aligned(stages, trainBatches, Clock(stage, epoch, iter))
      ensures (old(stage) < |stages| &&
               (EpochInStage(stages, old(epoch)) != 0 || ResolveOptimizer(stages[old(stage)].optimizer).Ok?) &&
               LoopEnd(stages, old(stage), old(epoch)).Some? &&
               LoopEnd(stages, old(stage), old(epoch)).value <= old(epoch) + fuel &&
               (valBatches.Some? || NoValidation(stages, old(stage), old(epoch), LoopEnd(stages, old(stage), old(epoch)).value))) ==>
        out == Finished
    {
      if |stages| == 0 {
        return Raised(StageIndexError);
      }
      if EpochInStage(stages, epoch) == 0 {
        if stage >= |stages| {
          return Raised(StageIndexError);
        }
        // `build_optimizer(cur_stage.optimizer)`, with the assignment made here
        var built := ResolveOptimizer(stages[stage].optimizer);
        if built.Err? {
          return Raised(OptimizerTypeError);
        }
        optimizer := Some(built.value);
      }
      out := StageBody(fuel);
    }

    /**
     * `run_stage` from the `before_stage` hooks on: the hooks, the stage
     * lookup (which fails here when it was skipped before), the loop, the
     * `after_stage` hooks and `stage + 1`.
     */
    method StageBody(fuel: nat) returns (out: Outcome)
      requires Valid() && 0 < |stages|
      modifies this`trace, this`losses, this`log, this`iter, this`epoch, this`stage
      ensures Valid()
      ensures out == Finished || out == OutOfFuel || out == Raised(StageIndexError) || out == Raised(MissingValLoader)
      ensures out == Raised(StageIndexError) <==> |stages| <= old(stage)
      ensures out == Raised(StageIndexError) ==>
        stage == old(stage) && epoch == old(epoch) && iter == old(iter) && log == old(log) && losses == old(losses) &&
        trace == old(trace) + Dispatch(hooks, BeforeStage, Clock(old(stage), old(epoch), old(iter)))
      ensures out == Finished ==> (old(stage) < |stages| &&
        LoopEnd(stages, old(stage), old(epoch)) == Some(epoch) && stage == old(stage) + 1 &&
        iter == old(iter) + Times(trainBatches, epoch - old(epoch)) &&
        trace == old(trace) + StageCalls(stages, old(stage), hooks, trainBatches, ValCount(), old(epoch), old(iter), epoch) &&
        log == old(log) + StageLoopLog(model, stages, old(stage), trainBatches, ValCount(), old(epoch), epoch))
      ensures out == OutOfFuel ==> (old(stage) < |stages| &&
        epoch == old(epoch) + fuel && stage == old(stage) && iter == old(iter) + Times(trainBatches, fuel) &&
        (LoopEnd(stages, old(stage), old(epoch)).None? || LoopEnd(stages, old(stage), old(epoch)).value > epoch) &&
        trace == old(trace) + Dispatch(hooks, BeforeStage, Clock(old(stage), old(epoch), old(iter))) +
          StageLoopCalls(stages, old(stage), hooks, trainBatches, ValCount(), old(epoch), old(iter), epoch) &&
        log == old(log) + StageLoopLog(model, stages, old(stage), trainBatches, ValCount(), old(epoch), epoch))
      ensures out == Raised(MissingValLoader) ==>
        old(stage) < |stages| && stage == old(stage) &&
        LoopRaised(model, stages, old(stage), hooks, trainBatches, ValCount(), valBatches.Some?, old(epoch), old(iter),
          old(trace) + Dispatch(hooks, BeforeStage, Clock(old(stage), old(epoch), old(iter))), old(log), epoch, iter, trace, log)
      ensures Aligned(stages, trainBatches, Clock(old(stage), old(epoch), old(iter))) ==> Aligned(stages, trainBatches, Clock(stage, epoch, iter))
      ensures (old(stage) < |stages| &&
          LoopEnd(stages, old(stage), old(epoch)).Some? &&
          LoopEnd(stages, old(stage), old(epoch)).value <= old(epoch) + fuel &&
          (valBatches.Some? || NoValidation(stages, old(stage), old(epoch), LoopEnd(stages, old(stage), old(epoch)).value))) ==>
        out == Finished
    {
      CallHook(BeforeStage);
      if stage >= |stages| {
        return Raised(StageIndexError);
      }
      out := StageRest(fuel, old(trace));
    }

    /** `run_stage` after the `before_stage` hooks, once the stage is known to exist. */
    method StageRest(fuel: nat, ghost t0: seq<Call>) returns (out: Outcome)
      requires Valid() && stage < |stages|
      requires trace == t0 + Dispatch(hooks, BeforeStage, Clock(stage, epoch, iter))
      modifies this`trace, this`losses, this`log, this`iter, this`epoch, this`stage
      ensures Valid()
      ensures out == Finished || out == OutOfFuel || out == Raised(MissingValLoader)
      ensures out == Finished ==> (
        LoopEnd(stages, old(stage), old(epoch)) == Some(epoch) && stage == old(stage) + 1 &&
        iter == old(iter) + Times(trainBatches, epoch - old(epoch)) &&
        trace == t0 + StageCalls(stages, old(stage), hooks, trainBatches, ValCount(), old(epoch), old(iter), epoch) &&
        log == old(log) + StageLoopLog(model, stages, old(stage), trainBatches, ValCount(), old(epoch), epoch))
      ensures out == OutOfFuel ==> (
        epoch == old(epoch) + fuel && stage == old(stage) && iter == old(iter) + Times(trainBatches, fuel) &&
        (LoopEnd(stages, old(stage), old(epoch)).None? || LoopEnd(stages, old(stage), old(epoch)).value > epoch) &&
        trace == old(trace) + StageLoopCalls(stages, old(stage), hooks, trainBatches, ValCount(), old(epoch), old(iter), epoch) &&
        log == old(log) + StageLoopLog(model, stages, old(stage), trainBatches, ValCount(), old(epoch), epoch))
      ensures out == Raised(MissingValLoader) ==>
        stage == old(stage) && LoopRaised(model, stages, old(stage), hooks, trainBatches, ValCount(), valBatches.Some?,
          old(epoch), old(iter), old(trace), old(log), epoch, iter, trace, log)
      ensures (LoopEnd(stages, old(stage), old(epoch)).Some? &&
          LoopEnd(stages, old(stage), old(epoch)).value <= old(epoch) + fuel &&
          (valBatches.Some? || NoValidation(stages, old(stage), old(epoch), LoopEnd(stages, old(stage), old(epoch)).value))) ==>
        out == Finished
      ensures Aligned(stages, trainBatches, Clock(old(stage), old(epoch), old(iter))) ==> Aligned(stages, trainBatches, Clock(stage, epoch, iter))
    {
      ghost var c := Clock(stage, epoch, iter);
      out := StageLoopExit(fuel);
      if out == Finished {
        EndStage(c.epoch, c.iter, t0);
      }
    }

    /** The end of a finished `run_stage`: the `after_stage` hooks, then `stage + 1`. */
    method EndStage(ghost e0: nat, ghost it0: nat, ghost t0: seq<Call>)
      requires Valid() && stage < |stages| && e0 <= epoch && iter == it0 + Times(trainBatches, epoch - e0)
      requires trace == t0 + Dispatch(hooks, BeforeStage, Clock(stage, e0, it0)) +
        StageLoopCalls(stages, stage, hooks, trainBatches, ValCount(), e0, it0, epoch)
      modifies this`trace, this`stage
      ensures Valid() && stage == old(stage) + 1
      ensures trace == t0 + StageCalls(stages, old(stage), hooks, trainBatches, ValCount(), e0, it0, epoch)
      ensures Aligned(stages, trainBatches, Clock(old(stage), e0, it0)) && LoopEnd(stages, old(stage), e0) == Some(epoch) ==>
        Aligned(stages, trainBatches, Clock(stage, epoch, iter))
    {
      ghost var s := stage;
      CallHook(AfterStage);
      StageSplit(t0, stages, s, hooks, trainBatches, ValCount(), e0, it0, epoch, iter, trace);
      stage := stage + 1;
      if Aligned(stages, trainBatches, Clock(s, e0, it0)) && LoopEnd(stages, s, e0) == Some(epoch) {
        AlignedNextStage(stages, trainBatches, Clock(s, e0, it0), epoch, iter);
      }
    }

    /**
     * `RunStage` as the `launch` loop sees it: the part of its contract
     * that loop relies on, and nothing else.
     */
    method StageStep(fuel: nat) returns (out: Outcome)
      requires Valid()
      modifies this`trace, this`losses, this`log, this`iter, this`epoch, this`stage, this`optimizer
      ensures Valid()
      ensures out == Finished ==> (old(stage) < |stages| &&
        LoopEnd(stages, old(stage), old(epoch)) == Some(epoch) && stage == old(stage) + 1 &&
        iter == old(iter) + Times(trainBatches, epoch - old(epoch)) &&
        trace == old(trace) + StageCalls(stages, old(stage), hooks, trainBatches, ValCount(), old(epoch), old(iter), epoch) &&
        log == old(log) + StageLoopLog(model, stages, old(stage), trainBatches, ValCount(), old(epoch), epoch))
      ensures (old(stage) < |stages| && Completes(stages, valBatches.Some?, fuel, old(stage), old(epoch))) ==>
        out == Finished && Completes(stages, valBatches.Some?, fuel, stage, epoch)
      ensures old(stage) < |stages| && out != Finished ==>
        stage == old(stage) &&
        Stopped(model, stages, hooks, trainBatches, ValCount(), valBatches.Some?, fuel,
          old(stage), old(epoch), old(iter), old(trace), old(log), out, epoch, iter, trace, log)
      ensures Aligned(stages, trainBatches, Clock(old(stage), old(epoch), old(iter))) ==> Aligned(stages, trainBatches, Clock(stage, epoch, iter))
    {
      if stage < |stages| && Completes(stages, valBatches.Some?, fuel, stage, epoch) {
        CompletesHead(stages, valBatches.Some?, fuel, stage, epoch);
      }
      out := RunStage(fuel);
    }

    /**
     * One `run_stage` of the `launch` loop entered at stage `s0`: a stage
     * that finishes extends the stages run so far by one, one that stops
     * says how, and a launch that completes from here still completes
     * after it.
     */
    method StagesStep(fuel: nat, ghost s0: nat, ghost from: RunEnd) returns (out: Outcome)
      requires Valid() && stage < |stages|
      requires EntersStage(model, stages, hooks, trainBatches, ValCount(), s0, from, stage, RunEnd(trace, log, epoch, iter))
      modifies this`trace, this`losses, this`log, this`iter, this`epoch, this`stage, this`optimizer
      ensures Valid()
      ensures out == Finished ==>
        stage == old(stage) + 1 &&
        EntersStage(model, stages, hooks, trainBatches, ValCount(), s0, from, stage, RunEnd(trace, log, epoch, iter))
      ensures out != Finished ==>
        stage == old(stage) &&
        Stopped(model, stages, hooks, trainBatches, ValCount(), valBatches.Some?, fuel,
          old(stage), old(epoch), old(iter), old(trace), old(log), out, epoch, iter, trace, log)
      ensures Completes(stages, valBatches.Some?, fuel, old(stage), old(epoch)) ==>
        out == Finished && Completes(stages, valBatches.Some?, fuel, stage, epoch)
      ensures Aligned(stages, trainBatches, Clock(old(stage), old(epoch), old(iter))) ==> Aligned(stages, trainBatches, Clock(stage, epoch, iter))
    {
      ghost var t, l, s, e, it := trace, log, stage, epoch, iter;
      out := StageStep(fuel);
      if out == Finished {
        EntersStageNext(model, stages, hooks, trainBatches, ValCount(), s0, from, s, RunEnd(t, l, e, it), epoch);
      }
    }

    /**
     * The `while` loop of `launch`: `run_stage` until every stage has run.
     * When no stage raises, the calls and writes are those of `LaunchFrom`;
     * when one stops, every stage before it ran as `EntersStage` says and
     * `Stopped` says what the stopped one left.
     */
    method RunStages(fuel: nat) returns (out: Outcome)
      requires Valid()
      modifies this`trace, this`losses, this`log, this`iter, this`epoch, this`stage, this`optimizer
      ensures Valid() && old(stage) <= stage
      ensures out == Finished ==> (stage == |stages| &&
        LaunchFrom(model, stages, hooks, trainBatches, ValCount(), old(trace), old(log), old(stage), old(epoch), old(iter)) ==
          Some(RunEnd(trace, log, epoch, iter)))
      ensures out != Finished ==>
        stage < |stages| &&
        exists r: RunEnd ::
          EntersStage(model, stages, hooks, trainBatches, ValCount(), old(stage), RunEnd(old(trace), old(log), old(epoch), old(iter)), stage, r) &&
          Stopped(model, stages, hooks, trainBatches, ValCount(), valBatches.Some?, fuel,
            stage, r.epoch, r.iter, r.calls, r.log, out, epoch, iter, trace, log)
      ensures Completes(stages, valBatches.Some?, fuel, old(stage), old(epoch)) ==> out == Finished
      ensures Aligned(stages, trainBatches, Clock(old(stage), old(epoch), old(iter))) ==> Aligned(stages, trainBatches, Clock(stage, epoch, iter))
    {
      ghost var s0, from := stage, RunEnd(trace, log, epoch, iter);
      ghost var completes := Completes(stages, valBatches.Some?, fuel, stage, epoch);
      ghost var aligned := Aligned(stages, trainBatches, Clock(stage, epoch, iter));
      out := Finished;
      while stage < maxStages
        invariant Valid()
        invariant EntersStage(model, stages, hooks, trainBatches, ValCount(), s0, from, stage, RunEnd(trace, log, epoch, iter))
        invariant out == Finished
        invariant completes ==> Completes(stages, valBatches.Some?, fuel, stage, epoch)
        invariant aligned ==> Aligned(stages, trainBatches, Clock(stage, epoch, iter))
        decreases |stages| - stage
      {
        out := StagesStep(fuel, s0, from);
        if out != Finished {
          return;
        }
      }
      EntersStageFrom(model, stages, hooks, trainBatches, ValCount(), s0, from, stage, RunEnd(trace, log, epoch, iter));
    }

    /**
     * `launch`: the `before_launch` hooks, `run_stage` until every stage
     * has run, then the `after_launch` hooks. An exception from a stage
     * ends it early, after the stages before it ran to their end.
     */
    method Launch(fuel: nat) returns (out: Outcome)
      requires Valid()
      modifies this`trace, this`losses, this`log, this`iter, this`epoch, this`stage, this`optimizer
      ensures Valid()
      ensures out == Finished ==>
        var r := LaunchRun(model, stages, hooks, trainBatches, ValCount(), old(stage), old(epoch), old(iter));
        stage == |stages| && r.Some? &&
        trace == old(trace) + Dispatch(hooks, BeforeLaunch, Clock(old(stage), old(epoch), old(iter))) + r.value.calls +
          Dispatch(hooks, AfterLaunch, Clock(stage, epoch, iter)) &&
        log == old(log) + r.value.log && epoch == r.value.epoch && iter == r.value.iter
      ensures out != Finished ==>
        stage < |stages| &&
        exists r: RunEnd ::
          EntersStage(model, stages, hooks, trainBatches, ValCount(), old(stage),
            RunEnd(old(trace) + Dispatch(hooks, BeforeLaunch, Clock(old(stage), old(epoch), old(iter))), old(log), old(epoch), old(iter)),
            stage, r) &&
          Stopped(model, stages, hooks, trainBatches, ValCount(), valBatches.Some?, fuel,
            stage, r.epoch, r.iter, r.calls, r.log, out, epoch, iter, trace, log)
      ensures Aligned(stages, trainBatches, Clock(old(stage), old(epoch), old(iter))) ==>
        Aligned(stages, trainBatches, Clock(stage, epoch, iter)) && OnScheduleSince(stages, trainBatches, trace, |old(trace)|)
      ensures old(stage) == 0 && old(epoch) == 0 && old(iter) == 0 ==> IterInStage() >= 0 && IterInEpoch() == 0
      ensures Completes(stages, valBatches.Some?, fuel, old(stage), old(epoch)) ==> out == Finished
      ensures (|stages| == 1 && old(stage) == 0 && old(epoch) == 0 && fuel >= stages[0].epochs &&
          ResolveOptimizer(stages[0].optimizer).Ok? && (valBatches.Some? || stages[0].valInterval <= 0)) ==>
        out == Finished && epoch == stages[0].epochs && iter == old(iter) + trainBatches * stages[0].epochs
    {
      ghost var s0, e0, it0 := stage, epoch, iter;
      if |stages| == 1 && s0 == 0 && e0 == 0 && fuel >= stages[0].epochs &&
         ResolveOptimizer(stages[0].optimizer).Ok? && (valBatches.Some? || stages[0].valInterval <= 0) {
        assert stages == [stages[0]];
        SingleStageCompletes(stages[0], valBatches.Some?, fuel);
      }
      out := RunLaunch(fuel);
      if out == Finished && |stages| == 1 && s0 == 0 && e0 == 0 {
        assert stages == [stages[0]];
        SingleStageRun(model, stages[0], hooks, trainBatches, ValCount(), it0);
        TimesIsMul(trainBatches, stages[0].epochs);
      }
    }

    /** The hooks and the stage loop of `launch`, with every call a launch from aligned counters adds on schedule. */
    method RunLaunch(fuel: nat) returns (out: Outcome)
      requires Valid()
      modifies this`trace, this`losses, this`log, this`iter, this`epoch, this`stage, this`optimizer
      ensures Valid()
      ensures out == Finished ==>
        var r := LaunchRun(model, stages, hooks, trainBatches, ValCount(), old(stage), old(epoch), old(iter));
        stage == |stages| && r.Some? &&
        trace == old(trace) + Dispatch(hooks, BeforeLaunch, Clock(old(stage), old(epoch), old(iter))) + r.value.calls +
          Dispatch(hooks, AfterLaunch, Clock(stage, epoch, iter)) &&
        log == old(log) + r.value.log && epoch == r.value.epoch && iter == r.value.iter
      ensures out != Finished ==>
        stage < |stages| &&
        exists r: RunEnd ::
          EntersStage(model, stages, hooks, trainBatches, ValCount(), old(stage),
            RunEnd(old(trace) + Dispatch(hooks, BeforeLaunch, Clock(old(stage), old(epoch), old(iter))), old(log), old(epoch), old(iter)),
            stage, r) &&
          Stopped(model, stages, hooks, trainBatches, ValCount(), valBatches.Some?, fuel,
            stage, r.epoch, r.iter, r.calls, r.log, out, epoch, iter, trace, log)
      ensures Aligned(stages, trainBatches, Clock(old(stage), old(epoch), old(iter))) ==>
        Aligned(stages, trainBatches, Clock(stage, epoch, iter)) && OnScheduleSince(stages, trainBatches, trace, |old(trace)|)
      ensures Completes(stages, valBatches.Some?, fuel, old(stage), old(epoch)) ==> out == Finished
    {
      ghost var t0, c0 := trace, Clock(stage, epoch, iter);
      ghost var aligned := Aligned(stages, trainBatches, c0);
      CallHook(BeforeLaunch);
      ghost var pre, l0 := trace, log;
      if aligned {
        DispatchOnSchedule(stages, trainBatches, hooks, BeforeLaunch, c0);
        OnScheduleAppend(stages, trainBatches, t0, Dispatch(hooks, BeforeLaunch, c0), |t0|);
      }
      out := RunStages(fuel);
      if out != Finished {
        if aligned {
          StoppedLaunchOnSchedule(model, stages, hooks, trainBatches, ValCount(), valBatches.Some?, fuel,
            c0.stage, RunEnd(pre, l0, c0.epoch, c0.iter), stage, out, epoch, iter, trace, log, |t0|);
        }
        return;
      }
      LaunchFromRun(model, stages, hooks, trainBatches, ValCount(), pre, l0, c0.stage, c0.epoch, c0.iter);
      ghost var mid := trace;
      CallHook(AfterLaunch);
      if aligned {
        var calls := LaunchRun(model, stages, hooks, trainBatches, ValCount(), c0.stage, c0.epoch, c0.iter).value.calls;
        LaunchRunOnSchedule(model, stages, hooks, trainBatches, ValCount(), c0.stage, c0.epoch, c0.iter);
        OnScheduleAppend(stages, trainBatches, pre, calls, |t0|);
        DispatchOnSchedule(stages, trainBatches, hooks, AfterLaunch, Clock(stage, epoch, iter));
        OnScheduleAppend(stages, trainBatches, mid, Dispatch(hooks, AfterLaunch, Clock(stage, epoch, iter)), |t0|);
      }
    }
  }

  lemma DispatchSnoc(hs: seq<Hook>, h: Hook, event: Event, at: Clock)
    ensures Dispatch(hs + [h], event, at) == Dispatch(hs, event, at) + [Call(h.name, event, at)]
  {
    var l := Dispatch(hs + [h], event, at);
    var r := Dispatch(hs, event, at) + [Call(h.name, event, at)];
    assert |l| == |r|;
    forall i | 0 <= i < |l| ensures l[i] == r[i] {
      DispatchAt(hs + [h], event, at, i);
      if i < |hs| {
        DispatchAt(hs, event, at, i);
        assert (hs + [h])[i] == hs[i];
      }
    }
  }
}
