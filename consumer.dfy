/**
 * The online consumer's dequeue count. Requests arrive as chunks of up to
 * `batch_size / num_test_crops` images; a graph variable holds the number of images the
 * caller wants, and each run dequeues enough chunks to cover it. The variable is only ever
 * assigned (by `Consumer.kwargs` or by running the assign unfed), never decremented.
 */
module Consuming {
  import opened Shapes
  import opened Wrappers

  const BatchSize: nat := 64
  const NumTestCrops: nat := 4
  const Capacity: nat := 64

  /**
   * `(total_size - 1) / test_batch_size + 1` as the int32 graph computes it: TensorFlow 0.x
   * divides integer tensors rounding toward zero.
   */
  function DequeueSizeAsWritten(total: int, chunk: nat): (r: int)
    requires chunk > 0
    ensures total >= 1 ==> r >= 1 && (r - 1) * chunk < total <= r * chunk
    ensures 1 - chunk < total <= 0 ==> r == 1
  {
    TruncDiv(total - 1, chunk) + 1
  }

  /** For every total of at least one image the formula is the ceiling of total / chunk. */
  lemma AsWrittenIsCeiling(total: int, chunk: nat)
    requires chunk > 0 && total >= 1
    ensures DequeueSizeAsWritten(total, chunk) == CeilDiv(total, chunk)
  {
  }

  /** A total of 0 still dequeues one chunk: -1 / chunk rounds toward zero, to 0. */
  lemma ZeroTotalDequeuesOneChunk()
    ensures DequeueSizeAsWritten(0, BatchSize / NumTestCrops) == 1
    ensures CeilDiv(0, BatchSize / NumTestCrops) == 0
  {
  }

  /** The dequeue count with the empty request handled: ceil(total / chunk) chunks. */
  function DequeueSize(total: int, chunk: nat): (r: int)
    requires chunk > 0
    ensures total >= 0 ==> r >= 0 && r == CeilDiv(total, chunk)
    ensures total != 0 ==> r == DequeueSizeAsWritten(total, chunk)
  {
    if total == 0 then 0 else DequeueSizeAsWritten(total, chunk)
  }

  /** The chunks dequeued for a total cover it, and one chunk fewer would not. */
  lemma DequeueCovers(total: nat, chunk: nat)
    requires chunk > 0
    ensures total <= DequeueSize(total, chunk) * chunk
    ensures DequeueSize(total, chunk) > 0 ==> (DequeueSize(total, chunk) - 1) * chunk < total
  {
  }

  /** The unfed default, `capacity * test_batch_size`, dequeues exactly `capacity` chunks. */
  lemma DefaultTotalDequeuesCapacity(capacity: nat, chunk: nat)
    requires chunk > 0
    ensures DequeueSize(capacity * chunk, chunk) == capacity
  {
    var c := DequeueSize(capacity * chunk, chunk);
    if c < capacity {
      MulLt(c, capacity, chunk);
    } else if c > capacity {
      MulLt(capacity, c - 1, chunk);
    }
  }

  lemma MulLt(x: nat, y: nat, chunk: nat)
    requires x < y && chunk > 0
    ensures x * chunk < y * chunk
  {
    assert y * chunk - x * chunk == (y - x) * chunk;
    MulMonotone(y - x, chunk);
  }

  /** The state of `Consumer` once built: its settings and the requested-total variable. */
  class Consumer {
    const batchSize: nat
    const numTestCrops: nat
    const capacity: nat
    var total: int

    constructor(batchSize: nat, numTestCrops: nat, capacity: nat)
      requires numTestCrops > 0 && batchSize >= numTestCrops
      ensures this.batchSize == batchSize && this.numTestCrops == numTestCrops
      ensures this.capacity == capacity && total == -1
    {
      this.batchSize := batchSize;
      this.numTestCrops := numTestCrops;
      this.capacity := capacity;
      total := -1;
    }

    /** The images per queued chunk, `batch_size / num_test_crops`. */
    function Chunk(): (r: nat)
      reads this
      requires numTestCrops > 0 && batchSize >= numTestCrops
      ensures r > 0 && r * numTestCrops <= batchSize
    {
      batchSize / numTestCrops
    }

    /** Running the assign: the fed total if one is fed, else `capacity * chunk`. */
    method Assign(fed: Option<int>)
      requires numTestCrops > 0 && batchSize >= numTestCrops
      modifies this
      ensures fed.Some? ==> total == fed.value
      ensures fed.None? ==> total == capacity * Chunk() && DequeueCount() == capacity
    {
      if fed.Some? {
        total := fed.value;
      } else {
        total := capacity * (batchSize / numTestCrops);
        DefaultTotalDequeuesCapacity(capacity, Chunk());
      }
    }

    /** `kwargs(total_size)` run by the session: stores the total unchanged. */
    method Kwargs(n: int) returns (key: string)
      requires numTestCrops > 0 && batchSize >= numTestCrops
      modifies this
      ensures total == n && key == "consumer_assign"
      ensures n >= 0 ==> DequeueCount() == CeilDiv(n, Chunk())
      ensures n != 0 ==> DequeueCount() == DequeueSizeAsWritten(n, Chunk())
    {
      Assign(Some(n));
      key := "consumer_assign";
    }

    /** The chunks the next dequeue takes, with the stored total as it stands. */
    function DequeueCount(): (r: int)
      reads this
      requires numTestCrops > 0 && batchSize >= numTestCrops
      ensures total >= 0 ==> r >= 0 && total <= r * Chunk() && (r > 0 ==> (r - 1) * Chunk() < total)
      ensures total != 0 ==> r == DequeueSizeAsWritten(total, Chunk())
      ensures total == 0 ==> r == 0 && (Chunk() > 1 ==> DequeueSizeAsWritten(total, Chunk()) == 1)
    {
      DequeueSize(total, Chunk())
    }
  }
}
