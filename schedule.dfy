/**
 * The stage schedule of the engine (nncore/engine/engine.py): stage
 * descriptors, cumulative epoch counts, and the derived counters
 * `epoch_in_stage` and the iteration offset of a stage.
 */
module Schedule {
  import opened Wrappers

  /** What a stage says about its optimizer: a config dict to build from, or an object. */
  datatype OptimizerArg =
    | OptimizerConfig(config: string)
    | OptimizerObject(name: string, hasZeroGrad: bool, hasStep: bool)

  /** The keyword arguments of a `grad_clip` entry, passed on to `clip_grad_norm_`. */
  type ClipConfig = seq<(string, real)>

  /**
   * One stage: its epoch count, its optimizer, its `val_interval`
   * (already defaulted to 0 when absent), the optional `loss` key and the
   * optional `grad_clip` config; the optimizer hooks read the last two
   * from `engine.cur_stage`.
   */
  datatype Stage = Stage(
    epochs: nat,
    optimizer: OptimizerArg,
    valInterval: int,
    loss: Option<string>,
    gradClip: Option<ClipConfig>)

  /** Epochs of the first `k` stages. */
  function CumEpochs(stages: seq<Stage>, k: nat): nat
    requires k <= |stages|
  {
    if k == 0 then 0 else CumEpochs(stages, k - 1) + stages[k - 1].epochs
  }

  /**
   * `n * k` written as repeated addition: the counters advance by `n` per
   * epoch, and this form keeps nonlinear terms out of the proofs about them.
   */
  function Times(n: nat, k: nat): nat
  {
    if k == 0 then 0 else Times(n, k - 1) + n
  }

  lemma {:induction false} TimesIsMul(n: nat, k: nat)
    ensures Times(n, k) == n * k
  {
    if k > 0 {
      TimesIsMul(n, k - 1);
    }
  }

  lemma {:induction false} TimesAdd(n: nat, a: nat, b: nat)
    ensures Times(n, a + b) == Times(n, a) + Times(n, b)
  {
    if b > 0 {
      TimesAdd(n, a, b - 1);
    }
  }

  /** Epochs of the whole schedule (`max_epochs`). */
  function MaxEpochs(stages: seq<Stage>): nat
  {
    CumEpochs(stages, |stages|)
  }

  lemma {:induction false} CumEpochsMonotone(stages: seq<Stage>, i: nat, j: nat)
    requires i <= j <= |stages|
    ensures CumEpochs(stages, i) <= CumEpochs(stages, j)
    decreases j - i
  {
    if i < j {
      CumEpochsMonotone(stages, i, j - 1);
    }
  }

  /**
   * The loop of `epoch_in_stage`: walk the stages with a running sum and
   * return the offset of `epoch` in the first stage whose cumulative end
   * reaches `epoch + 1`; past the end, the last stage's epoch count.
   */
  function ScanEpoch(stages: seq<Stage>, epoch: nat, i: nat, cumsum: nat): nat
    requires 0 < |stages| && i <= |stages| && cumsum <= epoch
    decreases |stages| - i
  {
    if i == |stages| then stages[|stages| - 1].epochs
    else if epoch + 1 <= cumsum + stages[i].epochs then epoch - cumsum
    else ScanEpoch(stages, epoch, i + 1, cumsum + stages[i].epochs)
  }

  /** `Engine.epoch_in_stage` for a given global epoch. */
  function EpochInStage(stages: seq<Stage>, epoch: nat): nat
    requires 0 < |stages|
  {
    ScanEpoch(stages, epoch, 0, 0)
  }

  lemma {:induction false} ScanWithinStage(stages: seq<Stage>, epoch: nat, i: nat, t: nat)
    requires t < |stages| && i <= t
    requires CumEpochs(stages, t) <= epoch < CumEpochs(stages, t + 1)
    ensures CumEpochs(stages, i) <= epoch
    ensures ScanEpoch(stages, epoch, i, CumEpochs(stages, i)) == epoch - CumEpochs(stages, t)
    decreases t - i
  {
    CumEpochsMonotone(stages, i, t);
    if i < t {
      CumEpochsMonotone(stages, i + 1, t);
      ScanWithinStage(stages, epoch, i + 1, t);
    }
  }

  lemma {:induction false} ScanPastEnd(stages: seq<Stage>, epoch: nat, i: nat)
    requires 0 < |stages| && i <= |stages| && MaxEpochs(stages) <= epoch
    ensures CumEpochs(stages, i) <= epoch
    ensures ScanEpoch(stages, epoch, i, CumEpochs(stages, i)) == stages[|stages| - 1].epochs
    decreases |stages| - i
  {
    CumEpochsMonotone(stages, i, |stages|);
    if i < |stages| {
      CumEpochsMonotone(stages, i + 1, |stages|);
      ScanPastEnd(stages, epoch, i + 1);
    }
  }

  /**
   * Inside the schedule: when stage `t` is the one whose cumulative
   * range holds `epoch`, `epoch_in_stage` is the offset from that stage's
   * start, and it lies in `[0, stages[t].epochs)`.
   */
  lemma EpochInStageWithin(stages: seq<Stage>, epoch: nat, t: nat)
    requires t < |stages|
    ensures CumEpochs(stages, t) <= epoch < CumEpochs(stages, t + 1) ==>
      EpochInStage(stages, epoch) == epoch - CumEpochs(stages, t) &&
      EpochInStage(stages, epoch) < stages[t].epochs
  {
    if CumEpochs(stages, t) <= epoch < CumEpochs(stages, t + 1) {
      ScanWithinStage(stages, epoch, 0, t);
    }
  }

  /** Past the schedule, `epoch_in_stage` sticks at the last stage's epoch count. */
  lemma EpochInStagePast(stages: seq<Stage>, epoch: nat)
    requires 0 < |stages| && MaxEpochs(stages) <= epoch
    ensures EpochInStage(stages, epoch) == stages[|stages| - 1].epochs
  {
    ScanPastEnd(stages, epoch, 0);
  }

  lemma {:induction false} StageOfEpochBelow(stages: seq<Stage>, epoch: nat, k: nat)
    requires k <= |stages| && epoch < CumEpochs(stages, k)
    ensures exists t: nat :: t < k && CumEpochs(stages, t) <= epoch < CumEpochs(stages, t + 1)
  {
    if CumEpochs(stages, k - 1) <= epoch {
      assert CumEpochs(stages, k - 1) <= epoch < CumEpochs(stages, k - 1 + 1);
    } else {
      StageOfEpochBelow(stages, epoch, k - 1);
    }
  }

  /** Every epoch inside the schedule belongs to some stage. */
  lemma StageOfEpoch(stages: seq<Stage>, epoch: nat)
    requires epoch < MaxEpochs(stages)
    ensures exists t: nat :: t < |stages| && CumEpochs(stages, t) <= epoch < CumEpochs(stages, t + 1)
  {
    StageOfEpochBelow(stages, epoch, |stages|);
  }

  /** ... and to only one. */
  lemma StageOfEpochUnique(stages: seq<Stage>, epoch: nat, t: nat, u: nat)
    requires t < |stages| && u < |stages|
    requires CumEpochs(stages, t) <= epoch < CumEpochs(stages, t + 1)
    requires CumEpochs(stages, u) <= epoch < CumEpochs(stages, u + 1)
    ensures t == u
  {
    if t < u {
      CumEpochsMonotone(stages, t + 1, u);
    } else if u < t {
      CumEpochsMonotone(stages, u + 1, t);
    }
  }

  /**
   * The loop of `run_stage` for stage `s`, entered at global epoch
   * `epoch`: it trains while `epoch_in_stage < stages[s].epochs`. The
   * result is the epoch at which the loop exits, or None when it never
   * exits (the value sticks below the bound past the end of the schedule).
   */
  function LoopEnd(stages: seq<Stage>, s: nat, epoch: nat): (r: Option<nat>)
    requires s < |stages|
    ensures r.Some? ==> epoch <= r.value && EpochInStage(stages, r.value) >= stages[s].epochs
    decreases if epoch < MaxEpochs(stages) then MaxEpochs(stages) - epoch else 0
  {
    if EpochInStage(stages, epoch) >= stages[s].epochs then Some(epoch)
    else if epoch >= MaxEpochs(stages) then None
    else LoopEnd(stages, s, epoch + 1)
  }

  /**
   * `LoopEnd` is exact: every epoch before the exit keeps the loop going,
   * and when there is no exit every epoch from the entry on does.
   */
  lemma {:induction false} LoopEndSpec(stages: seq<Stage>, s: nat, epoch: nat)
    requires s < |stages|
    ensures var r := LoopEnd(stages, s, epoch);
      (r.Some? ==> forall e :: epoch <= e < r.value ==> EpochInStage(stages, e) < stages[s].epochs) &&
      (r.None? ==> forall e :: epoch <= e ==> EpochInStage(stages, e) < stages[s].epochs)
    decreases if epoch < MaxEpochs(stages) then MaxEpochs(stages) - epoch else 0
  {
    if EpochInStage(stages, epoch) >= stages[s].epochs {
    } else if epoch >= MaxEpochs(stages) {
      EpochInStageConstantPast(stages, epoch);
    } else {
      LoopEndSpec(stages, s, epoch + 1);
    }
  }

  /** An epoch on which the loop keeps going does not change where it exits. */
  lemma LoopEndStep(stages: seq<Stage>, s: nat, epoch: nat)
    requires s < |stages| && EpochInStage(stages, epoch) < stages[s].epochs
    ensures LoopEnd(stages, s, epoch) == LoopEnd(stages, s, epoch + 1)
  {
    if epoch >= MaxEpochs(stages) {
      EpochInStageConstantPast(stages, epoch);
      assert EpochInStage(stages, epoch + 1) == EpochInStage(stages, epoch);
    }
  }

  /** The loop of `run_stage` for stage `s`, entered at `e0`, kept going on every epoch in `[e0, e)`. */
  predicate KeptGoing(stages: seq<Stage>, s: nat, e0: nat, e: nat)
    requires s < |stages|
  {
    e <= e0 || (KeptGoing(stages, s, e0, e - 1) && EpochInStage(stages, e - 1) < stages[s].epochs)
  }

  /** Epochs on which the loop kept going do not change where it exits. */
  lemma {:induction false} KeptGoingLoopEnd(stages: seq<Stage>, s: nat, e0: nat, e: nat)
    requires s < |stages| && e0 <= e && KeptGoing(stages, s, e0, e)
    ensures LoopEnd(stages, s, e0) == LoopEnd(stages, s, e)
  {
    if e > e0 {
      KeptGoingLoopEnd(stages, s, e0, e - 1);
      LoopEndStep(stages, s, e - 1);
    }
  }

  lemma EpochInStageConstantPast(stages: seq<Stage>, epoch: nat)
    requires 0 < |stages| && MaxEpochs(stages) <= epoch
    ensures forall e :: epoch <= e ==> EpochInStage(stages, e) == EpochInStage(stages, epoch)
  {
    EpochInStagePast(stages, epoch);
    forall e | epoch <= e ensures EpochInStage(stages, e) == EpochInStage(stages, epoch) {
      EpochInStagePast(stages, e);
    }
  }

  /**
   * A stage entered at or after its own start leaves its loop only at or
   * after its own end: `epoch >= CumEpochs(stages, s)` therefore holds at
   * every stage entry.
   */
  lemma ExitPastStage(stages: seq<Stage>, s: nat, epoch: nat)
    requires s < |stages| && CumEpochs(stages, s) <= epoch
    requires EpochInStage(stages, epoch) >= stages[s].epochs
    ensures CumEpochs(stages, s + 1) <= epoch
  {
    EpochInStageWithin(stages, epoch, s);
  }

  /** A one-stage schedule of E epochs, entered at epoch e <= E, leaves its loop at E. */
  lemma {:induction false} SingleStageLoopEnd(st: Stage, e: nat)
    requires e <= st.epochs
    ensures LoopEnd([st], 0, e) == Some(st.epochs)
    decreases st.epochs - e
  {
    var stages := [st];
    assert CumEpochs(stages, 1) == st.epochs by {
      assert CumEpochs(stages, 0) == 0;
    }
    if e < st.epochs {
      EpochInStageWithin(stages, e, 0);
      SingleStageLoopEnd(st, e + 1);
    } else {
      EpochInStagePast(stages, e);
    }
  }

  /** The global iteration at which stage `k` starts: the loop of `iter_in_stage`. */
  function StageIterOffset(stages: seq<Stage>, batches: nat, k: nat): nat
    requires k <= |stages|
  {
    if k == 0 then 0 else StageIterOffset(stages, batches, k - 1) + batches * stages[k - 1].epochs
  }

  lemma {:induction false} StageIterOffsetIsCum(stages: seq<Stage>, batches: nat, k: nat)
    requires k <= |stages|
    ensures StageIterOffset(stages, batches, k) == batches * CumEpochs(stages, k)
  {
    if k > 0 {
      StageIterOffsetIsCum(stages, batches, k - 1);
      assert batches * CumEpochs(stages, k) ==
        batches * CumEpochs(stages, k - 1) + batches * stages[k - 1].epochs;
    }
  }

  /** A stage with the given epoch count and nothing else set. */
  function PlainStage(epochs: nat): Stage
  {
    Stage(epochs, OptimizerConfig("sgd"), 0, None, None)
  }

  /**
   * With stages [2, 3], `epoch_in_stage` restarts at 0 when epoch 2 opens
   * stage 1, so the loop of stage 0 runs on to epoch 4: stage 0 trains four
   * epochs, and stage 1 then trains one.
   */
  lemma TwoThreeSchedule()
    ensures LoopEnd([PlainStage(2), PlainStage(3)], 0, 0) == Some(4)
    ensures LoopEnd([PlainStage(2), PlainStage(3)], 1, 4) == Some(5)
  {
    var stages := [PlainStage(2), PlainStage(3)];
    assert CumEpochs(stages, 1) == 2 by { assert CumEpochs(stages, 0) == 0; }
    assert CumEpochs(stages, 2) == 5;
    EpochInStageWithin(stages, 0, 0);
    EpochInStageWithin(stages, 1, 0);
    EpochInStageWithin(stages, 2, 1);
    EpochInStageWithin(stages, 3, 1);
    EpochInStageWithin(stages, 4, 1);
    EpochInStagePast(stages, 5);
    assert LoopEnd(stages, 0, 4) == Some(4);
    assert LoopEnd(stages, 0, 3) == Some(4);
    assert LoopEnd(stages, 0, 2) == Some(4);
    assert LoopEnd(stages, 0, 1) == Some(4);
    assert LoopEnd(stages, 1, 5) == Some(5);
  }

  /**
   * With stages [3, 1], stage 0's bound is 3 but `epoch_in_stage` is 0 at
   * epoch 3 and 1 from epoch 4 on: the loop of stage 0 never exits.
   */
  lemma ThreeOneScheduleDiverges()
    ensures LoopEnd([PlainStage(3), PlainStage(1)], 0, 0) == None
  {
    var stages := [PlainStage(3), PlainStage(1)];
    assert CumEpochs(stages, 1) == 3 by { assert CumEpochs(stages, 0) == 0; }
    assert CumEpochs(stages, 2) == 4;
    EpochInStageWithin(stages, 0, 0);
    EpochInStageWithin(stages, 1, 0);
    EpochInStageWithin(stages, 2, 0);
    EpochInStageWithin(stages, 3, 1);
    EpochInStagePast(stages, 4);
    assert LoopEnd(stages, 0, 4) == None;
    assert LoopEnd(stages, 0, 3) == None;
    assert LoopEnd(stages, 0, 2) == None;
    assert LoopEnd(stages, 0, 1) == None;
  }
}
