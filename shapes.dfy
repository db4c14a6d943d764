/**
 * Tensor shapes and the integer arithmetic TensorFlow 0.x applies to int32 tensors.
 * The repository targets TensorFlow 0.x (`tf.pack`, `tf.initialize_all_variables`), where
 * `/` on integer tensors truncates toward zero; Python 2 `/` on two non-negative ints
 * floors, which is Dafny's `/` on such operands.
 */
module Shapes {

  /** `tf.div` on int32 tensors in TensorFlow 0.x: the quotient rounded toward zero. */
  function TruncDiv(a: int, b: int): (r: int)
    requires b > 0
    ensures a >= 0 ==> r * b <= a < r * b + b
    ensures a < 0 ==> r * b - b < a <= r * b
  {
    if a >= 0 then a / b else -((-a) / b)
  }

  /** The least r with a <= r * b: how many chunks of b cover a items. */
  function CeilDiv(a: nat, b: nat): (r: nat)
    requires b > 0
    ensures a <= r * b
    ensures r > 0 ==> (r - 1) * b < a
  {
    if a == 0 then 0 else (a - 1) / b + 1
  }

  /** The number of elements of a tensor of this shape. */
  function Product(shape: seq<nat>): nat {
    if shape == [] then 1 else shape[0] * Product(shape[1..])
  }

  /**
   * `tf.reshape(value, (-1,) + shape[2:])`: the two leading dimensions merged into one,
   * as Batch.test and Consumer.build do to fold crops (or padded chunks) into rows.
   */
  function FlattenLeading(shape: seq<nat>): (r: seq<nat>)
    requires |shape| >= 2
    ensures |r| == |shape| - 1 && r[0] == shape[0] * shape[1] && r[1..] == shape[2..]
    ensures Product(r) == Product(shape)
  {
    var r := [shape[0] * shape[1]] + shape[2..];
    assert r[1..] == shape[2..] && shape[1..][1..] == shape[2..];
    assert Product(r) == shape[0] * shape[1] * Product(shape[2..]);
    r
  }

  /**
   * Splits the leading dimension into (rows / k, k) and keeps the rest; FlattenLeading
   * undoes it whenever k divides the rows.
   */
  function SplitLeading(shape: seq<nat>, k: nat): (r: seq<nat>)
    requires |shape| >= 1 && k > 0
    ensures |r| == |shape| + 1 && r[0] == shape[0] / k && r[1] == k && r[2..] == shape[1..]
    ensures shape[0] % k == 0 ==> FlattenLeading(r) == shape
  {
    var r := [shape[0] / k, k] + shape[1..];
    assert r[2..] == shape[1..];
    assert shape[0] % k == 0 ==> (shape[0] / k) * k == shape[0];
    r
  }

  lemma {:induction false} MulMonotone(d: int, k: nat)
    requires d >= 1 && k > 0
    ensures d * k >= k
  {
    if d > 1 {
      MulMonotone(d - 1, k);
      assert d * k == (d - 1) * k + k;
    }
  }

  lemma MulDivCancel(b: nat, k: nat)
    requires k > 0
    ensures (b * k) / k == b && (b * k) % k == 0
  {
    var q, r := (b * k) / k, (b * k) % k;
    assert b * k == q * k + r;
    assert (b - q) * k == r;
    if q < b {
      MulMonotone(b - q, k);
    } else if q > b {
      MulMonotone(q - b, k);
    }
  }

  lemma MulLe(x: nat, y: nat, b: nat)
    requires x <= y
    ensures x * b <= y * b
  {
    assert y * b - x * b == (y - x) * b;
  }

  /** p cancels from both sides of a product once it is positive. */
  lemma MulCancel(a: nat, b: nat, p: nat)
    requires p > 0 && a * p == b * p
    ensures a == b
  {
    if a < b {
      assert (b - a) * p == b * p - a * p;
      MulMonotone(b - a, p);
    } else if a > b {
      assert (a - b) * p == a * p - b * p;
      MulMonotone(a - b, p);
    }
  }

  /** The element count of two shapes side by side is the product of their counts. */
  lemma {:induction false} ProductAppend(a: seq<nat>, b: seq<nat>)
    ensures Product(a + b) == Product(a) * Product(b)
  {
    if a == [] {
      assert a + b == b;
    } else {
      ProductAppend(a[1..], b);
      assert (a + b)[1..] == a[1..] + b;
      assert a[0] * (Product(a[1..]) * Product(b)) == (a[0] * Product(a[1..])) * Product(b);
    }
  }

  /** A shape of two dimensions holds their product. */
  lemma ProductPair(x: nat, y: nat)
    ensures Product([x, y]) == x * y
  {
    assert [x, y][1..] == [y];
    assert [y][1..] == [];
    assert Product([y]) == y;
  }

  /** Placing (x, y) in front of a shape multiplies its element count by x * y. */
  lemma ProductPairFront(x: nat, y: nat, rest: seq<nat>)
    ensures Product([x, y] + rest) == (x * y) * Product(rest)
  {
    ProductAppend([x, y], rest);
    ProductPair(x, y);
  }

  /** Splitting the rows back by the folded dimension recovers the original shape. */
  lemma SplitOfFlatten(shape: seq<nat>)
    requires |shape| >= 2 && shape[1] > 0
    ensures SplitLeading(FlattenLeading(shape), shape[1]) == shape
  {
    var b, k := shape[0], shape[1];
    MulDivCancel(b, k);
    assert shape == [b, k] + shape[2..];
  }
}
