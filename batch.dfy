/**
 * The batch-size counter of `Batch.make_size`. A graph variable holds the number of
 * examples still to be served, or -1 for "unbounded". Every dequeue step asks for
 * min(counter, B) examples (B when the counter is -1) and takes that many off the counter.
 * `Batch.kwargs` overwrites the counter of one phase with a caller-supplied total.
 */
module Batching {
  import opened Shapes
  import opened Nets
  import opened Wrappers

  const BatchSize: nat := 64
  const NumTestCrops: nat := 4
  const TrainCapacity: nat := 4096 + 1024
  const TestCapacity: nat := 64
  const MinAfterDequeue: nat := 4096

  /** The counter value that means "no total set: serve full batches forever". */
  const Unbounded := -1

  function Min(a: int, b: int): int {
    if a <= b then a else b
  }

  /** The batch size one step requests: B while unbounded, else at most what remains. */
  function StepSize(total: int, b: nat): (r: int)
    ensures total == Unbounded ==> r == b
    ensures total != Unbounded ==> r <= b && r <= total && (r == b || r == total)
  {
    if total == Unbounded then b else Min(total, b)
  }

  /** The counter after one step: unchanged while unbounded, else decremented by the batch. */
  function NextTotal(total: int, b: nat): (r: int)
    ensures total == Unbounded ==> r == Unbounded
    ensures total != Unbounded ==> r == total - StepSize(total, b)
  {
    var dec := if total == Unbounded then 0 else Min(total, b);
    total - dec
  }

  /** One step never leaves a set counter negative, and never raises it. */
  lemma StepKeepsCounterInRange(total: int, b: nat)
    requires total != Unbounded
    ensures 0 <= NextTotal(total, b)
    ensures total >= 0 ==> NextTotal(total, b) <= total
    ensures total >= 0 ==> 0 <= StepSize(total, b) <= b
    ensures NextTotal(total, b) == if total <= b then 0 else total - b
  {
  }

  /** The batch sizes of k successive steps starting from `total`. */
  function Sizes(total: int, b: nat, k: nat): (r: seq<int>)
    ensures |r| == k
    decreases k
  {
    if k == 0 then [] else [StepSize(total, b)] + Sizes(NextTotal(total, b), b, k - 1)
  }

  /** The counter after k successive steps starting from `total`. */
  function After(total: int, b: nat, k: nat): int
    decreases k
  {
    if k == 0 then total else After(NextTotal(total, b), b, k - 1)
  }

  function Sum(s: seq<int>): int {
    if s == [] then 0 else s[0] + Sum(s[1..])
  }

  /** An unbounded counter stays unbounded and serves full batches of B. */
  lemma {:induction false} UnboundedServesFullBatches(b: nat, k: nat)
    ensures After(Unbounded, b, k) == Unbounded
    ensures |Sizes(Unbounded, b, k)| == k
    ensures forall i :: 0 <= i < k ==> Sizes(Unbounded, b, k)[i] == b
  {
    if k > 0 {
      UnboundedServesFullBatches(b, k - 1);
    }
  }

  /**
   * From a total N >= 0, what has been served plus what remains is always N; every batch
   * lies in 0 .. B; and after k steps max(0, N - k * B) remain.
   */
  lemma {:induction false} Conservation(n: nat, b: nat, k: nat)
    ensures |Sizes(n, b, k)| == k
    ensures Sum(Sizes(n, b, k)) + After(n, b, k) == n
    ensures forall i :: 0 <= i < k ==> 0 <= Sizes(n, b, k)[i] <= b
    ensures After(n, b, k) == if n <= k * b then 0 else n - k * b
  {
    if k > 0 {
      var next := NextTotal(n, b);
      Conservation(next, b, k - 1);
      assert k * b == (k - 1) * b + b;
    }
  }

  /** Once the counter reaches 0 every further batch is empty. */
  lemma {:induction false} ExhaustedStaysEmpty(b: nat, k: nat)
    ensures After(0, b, k) == 0
    ensures forall i :: 0 <= i < |Sizes(0, b, k)| ==> Sizes(0, b, k)[i] == 0
  {
    if k > 0 {
      ExhaustedStaysEmpty(b, k - 1);
    }
  }

  /**
   * From a total N >= 0, exactly ceil(N / B) steps drain the counter: all but the last
   * batch are full, the last is not empty, and together they serve N.
   */
  lemma {:induction false} DrainsExactly(n: nat, b: nat)
    requires b > 0
    ensures var k := CeilDiv(n, b);
      && Sum(Sizes(n, b, k)) == n
      && After(n, b, k) == 0
      && (forall i :: 0 <= i < k - 1 ==> Sizes(n, b, k)[i] == b)
      && (k > 0 ==> Sizes(n, b, k)[k - 1] > 0)
  {
    var k := CeilDiv(n, b);
    Conservation(n, b, k);
    FullUntilLast(n, b, k);
  }

  /** The i-th batch is the step size of the counter as it stands after i steps. */
  lemma {:induction false} SizeAt(total: int, b: nat, k: nat, i: nat)
    requires i < k
    ensures Sizes(total, b, k)[i] == StepSize(After(total, b, i), b)
    decreases i
  {
    if i > 0 {
      SizeAt(NextTotal(total, b), b, k - 1, i - 1);
    }
  }

  /** Before the last of ceil(N / B) steps more than B remain, so the batch is full. */
  lemma FullUntilLast(n: nat, b: nat, k: nat)
    requires b > 0 && k == CeilDiv(n, b)
    ensures forall i :: 0 <= i < k - 1 ==> Sizes(n, b, k)[i] == b
    ensures k > 0 ==> Sizes(n, b, k)[k - 1] > 0
  {
    forall i | 0 <= i < k - 1
      ensures Sizes(n, b, k)[i] == b
    {
      SizeAt(n, b, k, i);
      Conservation(n, b, i);
      MulLe(i + 1, k - 1, b);
      assert (i + 1) * b == i * b + b;
    }
    if k > 0 {
      SizeAt(n, b, k, k - 1);
      Conservation(n, b, k - 1);
    }
  }

  /**
   * One `make_size` counter. `Step` is one dequeue with the assign run unfed, so the
   * placeholder takes the decremented value; `Feed` is `Batch.kwargs` feeding a total.
   */
  class SizeCounter {
    const requested: nat
    var total: int

    constructor(requested: nat)
      ensures this.requested == requested && total == Unbounded
    {
      this.requested := requested;
      total := Unbounded;
    }

    method Step() returns (size: int)
      modifies this
      ensures size == StepSize(old(total), requested)
      ensures total == NextTotal(old(total), requested)
    {
      if total == Unbounded {
        size := requested;
      } else {
        size := Min(total, requested);
        total := total - size;
      }
    }

    method Feed(n: int)
      modifies this
      ensures total == n
    {
      total := n;
    }
  }

  /** The fetch key `Batch.kwargs` uses for the assign of each phase. */
  function AssignKey(phase: Phase): (r: string)
    requires phase != NONE
    ensures phase == TRAIN ==> r == "batch_train_assign"
    ensures phase == TEST ==> r == "batch_test_assign"
  {
    if phase == TRAIN then "batch_train_assign" else "batch_test_assign"
  }

  /**
   * `Batch` with both counters built. The test counter serves `batchSize / numTestCrops`
   * images per step, each carrying `numTestCrops` crops.
   */
  class Batch {
    const batchSize: nat
    const numTestCrops: nat
    const trainCapacity: nat
    const testCapacity: nat
    const minAfterDequeue: nat
    const train: SizeCounter
    const test: SizeCounter

    constructor(batchSize: nat, numTestCrops: nat, trainCapacity: nat, testCapacity: nat,
                minAfterDequeue: nat)
      requires numTestCrops > 0
      ensures this.batchSize == batchSize && this.numTestCrops == numTestCrops
      ensures this.trainCapacity == trainCapacity && this.testCapacity == testCapacity
      ensures this.minAfterDequeue == minAfterDequeue
      ensures fresh(train) && fresh(test) && train != test
      ensures train.requested == batchSize && train.total == Unbounded
      ensures test.requested == batchSize / numTestCrops && test.total == Unbounded
    {
      this.batchSize := batchSize;
      this.numTestCrops := numTestCrops;
      this.trainCapacity := trainCapacity;
      this.testCapacity := testCapacity;
      this.minAfterDequeue := minAfterDequeue;
      train := new SizeCounter(batchSize);
      test := new SizeCounter(batchSize / numTestCrops);
    }

    /**
     * `kwargs(total_size, phase)` run by the session: TRAIN and TEST overwrite their own
     * counter and return the fetch key; any other phase returns nothing and changes nothing.
     */
    method Kwargs(total: int, phase: Phase) returns (key: Option<string>)
      requires train != test
      modifies train, test
      ensures phase == TRAIN ==> train.total == total && test.total == old(test.total)
      ensures phase == TEST ==> test.total == total && train.total == old(train.total)
      ensures phase == NONE ==> train.total == old(train.total) && test.total == old(test.total)
      ensures phase != NONE ==> key == Some(AssignKey(phase))
      ensures phase == NONE ==> key == None
    {
      if phase == TRAIN {
        train.Feed(total);
        key := Some(AssignKey(phase));
      } else if phase == TEST {
        test.Feed(total);
        key := Some(AssignKey(phase));
      } else {
        key := None;
      }
    }
  }

  /**
   * `Batch.test` folds the crop axis into the rows: a batch of b images of K crops each
   * reaches the network as b * K rows of the same image size. A full test batch of
   * `batch_size / K` images thus holds at most `batch_size` rows; with the defaults it is
   * 16 images of 4 crops, 64 rows, as in training.
   */
  function TestRows(b: nat, crops: nat, imageSize: seq<nat>): (r: seq<nat>)
    ensures r == [b * crops] + imageSize
    ensures Product(r) == Product([b, crops] + imageSize)
  {
    var shape := [b, crops] + imageSize;
    assert shape[2..] == imageSize;
    FlattenLeading(shape)
  }
}
