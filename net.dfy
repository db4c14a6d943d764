/**
 * The network's phase switch and the small helpers every layer uses. The phase lives in a
 * graph variable that `start`, `train`, `test` and `online` assign; `case` picks, inside
 * the graph, the branch paired with the phase currently stored.
 */
module Nets {

  datatype Phase = NONE | TRAIN | TEST
  {
    /**
     * The int32 value the phase variable stores. Distinct phases store distinct values, so
     * `case` comparing the stored value with `phase_.value` compares phases.
     */
    function Value(): nat {
      match this
      case NONE => 0
      case TRAIN => 1
      case TEST => 2
    }
  }

  /** The position of the first pair whose phase equals `phase`, or |pairs| if there is none. */
  function FirstMatch<T>(phase: Phase, pairs: seq<(Phase, T)>): (i: nat)
    ensures i <= |pairs|
    ensures i < |pairs| ==> pairs[i].0 == phase
    ensures forall j :: 0 <= j < i ==> pairs[j].0 != phase
  {
    if pairs == [] then 0
    else if pairs[0].0 == phase then 0
    else FirstMatch(phase, pairs[1..]) + 1
  }

  /**
   * `Net.case` as `tf.case` evaluates it: the branch of the first pair whose phase equals the
   * stored one; when none does, the branch of the first pair. An empty list has no first
   * pair, and Python raises on `pred_fn_pairs[0]`.
   */
  function Case<T>(phase: Phase, pairs: seq<(Phase, T)>): (r: T)
    requires |pairs| > 0
    ensures (exists i :: 0 <= i < |pairs| && pairs[i].0 == phase) ==>
      exists i :: 0 <= i < |pairs| && pairs[i].0 == phase && r == pairs[i].1 &&
        forall j :: 0 <= j < i ==> pairs[j].0 != phase
    ensures (forall i :: 0 <= i < |pairs| ==> pairs[i].0 != phase) ==> r == pairs[0].1
  {
    var i := FirstMatch(phase, pairs);
    if i < |pairs| then pairs[i].1 else pairs[0].1
  }

  /** With one pair per phase, the pair listing the stored phase is the one chosen. */
  lemma CaseOfListedPhase<T>(phase: Phase, pairs: seq<(Phase, T)>, i: nat)
    requires i < |pairs| && pairs[i].0 == phase
    requires forall j, k :: 0 <= j < k < |pairs| ==> pairs[j].0 != pairs[k].0
    ensures Case(phase, pairs) == pairs[i].1
  {
    var m := FirstMatch(phase, pairs);
    assert m <= i;
    assert pairs[m].0 == pairs[i].0;
  }

  /** `Net.expand`: a window (or stride) for NHWC tensors, 1 on the batch and channel axes. */
  function Expand(size: seq<nat>): (r: seq<nat>)
    ensures |r| == |size| + 2
    ensures r[0] == 1 && r[|r| - 1] == 1
    ensures r[1..|r| - 1] == size
  {
    [1] + size + [1]
  }

  /** The `ksize` and `strides` arguments `avg_pool` and `max_pool` pass to TensorFlow. */
  datatype PoolWindow = PoolWindow(ksize: seq<nat>, strides: seq<nat>)

  /** `avg_pool`/`max_pool`: a missing stride defaults to the window size. */
  function Pool(size: seq<nat>, stride: seq<nat>, strideGiven: bool): (r: PoolWindow)
    ensures r.ksize == Expand(size)
    ensures |r.strides| >= 2 && r.strides[1..|r.strides| - 1] == (if strideGiven then stride else size)
    ensures !strideGiven ==> r.strides == r.ksize
  {
    PoolWindow(Expand(size), Expand(if strideGiven then stride else size))
  }

  /**
   * The phase-holding part of `Net`. The constructor asserts that there is at least one
   * class, and the phase variable starts at NONE.
   */
  class Net {
    const classNames: seq<string>
    var phase: Phase

    constructor(classNames: seq<string>)
      requires |classNames| > 0
      ensures this.classNames == classNames && phase == NONE
    {
      this.classNames := classNames;
      phase := NONE;
    }

    /** `start`: assigns the given default phase (NONE unless told otherwise). */
    method Start(defaultPhase: Phase)
      modifies this
      ensures phase == defaultPhase
    {
      phase := defaultPhase;
    }

    /** `train` assigns TRAIN before running the training loop. */
    method Train()
      modifies this
      ensures phase == TRAIN
    {
      phase := TRAIN;
    }

    /** `test` assigns TEST before running the evaluation loop. */
    method Test()
      modifies this
      ensures phase == TEST
    {
      phase := TEST;
    }

    /** `online` assigns TEST before serving one request. */
    method Online()
      modifies this
      ensures phase == TEST
    {
      phase := TEST;
    }
  }
}
