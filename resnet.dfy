/**
 * The structural decisions of `ResNet`: where each parameter's initial value comes from,
 * how a bottleneck unit and a block of units are laid out, how ResNet-50 stacks its
 * blocks, and how `rebatch` regroups crop rows per image.
 */
module ResNets {
  import opened Wrappers
  import opened Shapes
  import opened Nets
  import opened Blobs

  const NumTestCrops: nat := 4

  // ---------------------------------------------------------------------------
  // get_initializer
  // ---------------------------------------------------------------------------

  /**
   * Where a variable's initial value comes from: nowhere (a checkpoint will be restored),
   * entry `index` of the archived parameters under `key` (its first column for vectors),
   * or the layer's own default.
   */
  datatype Initializer<D> =
    | NoInitializer
    | FromArchive(key: string, index: nat, isVector: bool)
    | Default(init: D)

  /**
   * `get_initializer`: a saved model wins over everything; otherwise the archived
   * parameters are used when they hold the name; otherwise the given default.
   */
  function GetInitializer<D>(checkpointExists: bool, archive: set<string>, name: string,
                             index: nat, isVector: bool, default: D): (r: Initializer<D>)
    ensures r.NoInitializer? <==> checkpointExists
    ensures r.FromArchive? <==> !checkpointExists && name in archive
    ensures r.Default? <==> !checkpointExists && name !in archive
    ensures r.FromArchive? ==> r == FromArchive(name, index, isVector)
    ensures r.Default? ==> r.init == default
  {
    if checkpointExists then NoInitializer
    else if name in archive then FromArchive(name, index, isVector)
    else Default(default)
  }

  // ---------------------------------------------------------------------------
  // unit and block
  // ---------------------------------------------------------------------------

  /** A feature map of one image, NHWC without the batch axis. */
  datatype FeatureMap = FeatureMap(height: nat, width: nat, channels: nat)

  /** One `conv` call: a square `size` x `size` window, with batch normalisation `normName`. */
  datatype Conv = Conv(name: string, outChannels: nat, size: nat, stride: nat, normName: string)

  /** `conv2d` with SAME padding: each spatial side becomes ceil(side / stride). */
  function ConvOut(x: FeatureMap, c: Conv): (r: FeatureMap)
    requires c.stride > 0
    ensures r.channels == c.outChannels
    ensures c.stride == 1 ==> r.height == x.height && r.width == x.width
  {
    FeatureMap(CeilDiv(x.height, c.stride), CeilDiv(x.width, c.stride), c.outChannels)
  }

  /** A bottleneck unit: an optional projection shortcut and the three-convolution branch. */
  datatype Unit = Unit(name: string, inChannels: nat, subsample: bool, shortcut: Option<Conv>,
                       branch2a: Conv, branch2b: Conv, branch2c: Conv)
  {
    predicate WellFormed() {
      (shortcut.Some? ==> shortcut.value.stride > 0) &&
      branch2a.stride > 0 && branch2b.stride > 0 && branch2c.stride > 0
    }
  }

  function Stride(subsample: bool): nat {
    if subsample then 2 else 1
  }

  /**
   * `unit`: the stride is 2 exactly when subsampling; the unit widens to 4 * out channels;
   * a projection shortcut is built when subsampling or when the input is not already
   * 4 * out channels wide; otherwise the input itself is added back.
   */
  function UnitPlan(name: string, inChannels: nat, subsample: bool, out: nat): (u: Unit)
    ensures u.WellFormed()
    ensures u.name == name && u.inChannels == inChannels && u.subsample == subsample
  {
    var stride := Stride(subsample);
    Unit(name, inChannels, subsample,
         if subsample || inChannels != 4 * out
         then Some(Conv("res" + name + "_branch1", 4 * out, 1, stride, name + "_branch1"))
         else None,
         Conv("res" + name + "_branch2a", out, 1, stride, name + "_branch2a"),
         Conv("res" + name + "_branch2b", out, 3, 1, name + "_branch2b"),
         Conv("res" + name + "_branch2c", 4 * out, 1, 1, name + "_branch2c"))
  }

  /** The main branch's output: 2a (strided), 2b (3x3), 2c (widening). */
  function MainOut(x: FeatureMap, u: Unit): FeatureMap
    requires u.WellFormed()
  {
    ConvOut(ConvOut(ConvOut(x, u.branch2a), u.branch2b), u.branch2c)
  }

  /** The shortcut's output: the projection if there is one, else the input unchanged. */
  function ShortcutOut(x: FeatureMap, u: Unit): FeatureMap
    requires u.WellFormed()
  {
    if u.shortcut.Some? then ConvOut(x, u.shortcut.value) else x
  }

  lemma CeilDivOne(n: nat)
    ensures CeilDiv(n, 1) == n
  {
  }

  /**
   * The two summands of `relu(value1 + value2)` always have the same shape: ceil(side /
   * stride) on each side and 4 * out channels.
   */
  lemma UnitBranchesAgree(x: FeatureMap, name: string, subsample: bool, out: nat)
    ensures var u := UnitPlan(name, x.channels, subsample, out);
      && ShortcutOut(x, u) == MainOut(x, u)
      && MainOut(x, u) == FeatureMap(CeilDiv(x.height, Stride(subsample)),
                                     CeilDiv(x.width, Stride(subsample)), 4 * out)
  {
    var s := Stride(subsample);
    CeilDivOne(CeilDiv(x.height, s));
    CeilDivOne(CeilDiv(x.width, s));
    if !subsample {
      CeilDivOne(x.height);
      CeilDivOne(x.width);
    }
  }

  /**
   * A projection is built exactly when the unit subsamples or changes the channel count,
   * and the unit's input and output differ in shape exactly when it changes the channel
   * count or subsamples a map with a side of at least 2. So the projection is needed
   * wherever it is built, except on a subsampling unit over a map of sides <= 1, where the
   * stride leaves the shape unchanged and the projection is built all the same.
   */
  lemma ProjectionNeeded(x: FeatureMap, name: string, subsample: bool, out: nat)
    ensures var u := UnitPlan(name, x.channels, subsample, out);
      u.shortcut.Some? <==> subsample || x.channels != 4 * out
    ensures var u := UnitPlan(name, x.channels, subsample, out);
      x != MainOut(x, u) <==> x.channels != 4 * out || (subsample && (x.height >= 2 || x.width >= 2))
  {
    UnitBranchesAgree(x, name, subsample, out);
    if subsample {
      HalvingShrinks(x.height);
      HalvingShrinks(x.width);
    } else {
      CeilDivOne(x.height);
      CeilDivOne(x.width);
    }
  }

  /** Rounding a side up after halving keeps it only when it is 0 or 1. */
  lemma HalvingShrinks(n: nat)
    ensures CeilDiv(n, 2) == n <==> n <= 1
  {
  }

  /** `'%s%c' % (name, ord('a') + k)`: the block name followed by the k-th letter. */
  function UnitName(block: string, k: nat): (r: string)
    requires k < 256 - 97
    ensures |r| == |block| + 1 && r[..|block|] == block && r[|block|] as int == 97 + k
  {
    block + [(97 + k) as char]
  }

  /** The channel count after a list of units: the last unit's output, else `in`. */
  function ChannelsAfter(inChannels: nat, units: seq<Unit>): nat {
    if units == [] then inChannels else units[|units| - 1].branch2c.outChannels
  }

  /**
   * `block`: `numUnits` units named a, b, c, ..., each fed with its predecessor's
   * channels, and only the first subsampling. Python 2's `%c` takes a byte, so at most
   * 159 units fit after 'a'.
   */
  function BlockPlan(name: string, inChannels: nat, numUnits: nat, subsample: bool, out: nat): (r: seq<Unit>)
    requires numUnits <= 256 - 97
    ensures |r| == numUnits
    ensures forall k :: 0 <= k < numUnits ==> r[k].WellFormed()
  {
    if numUnits == 0 then []
    else
      var front := BlockPlan(name, inChannels, numUnits - 1, subsample, out);
      var k := numUnits - 1;
      front + [UnitPlan(UnitName(name, k), ChannelsAfter(inChannels, front), subsample && k == 0, out)]
  }

  /** The feature map after running a list of units in order. */
  function UnitsOut(x: FeatureMap, units: seq<Unit>): FeatureMap
    requires forall k :: 0 <= k < |units| ==> units[k].WellFormed()
  {
    if units == [] then x
    else MainOut(UnitsOut(x, units[..|units| - 1]), units[|units| - 1])
  }

  /**
   * The layout of a block: unit k is named after letter k, takes `in` channels if it is
   * the first and 4 * out otherwise, subsamples only if it is the first of a subsampling
   * block, and carries a projection only if it is the first and the shape changes.
   */
  lemma {:induction false} BlockLayout(name: string, inChannels: nat, n: nat, subsample: bool, out: nat)
    requires n <= 256 - 97
    ensures var r := BlockPlan(name, inChannels, n, subsample, out);
      && ChannelsAfter(inChannels, r) == (if n == 0 then inChannels else 4 * out)
      && forall k :: 0 <= k < n ==>
        && r[k].WellFormed()
        && r[k].name == UnitName(name, k)
        && r[k].inChannels == (if k == 0 then inChannels else 4 * out)
        && r[k].subsample == (subsample && k == 0)
        && (r[k].shortcut.Some? <==> k == 0 && (subsample || inChannels != 4 * out))
  {
    if n > 0 {
      BlockLayout(name, inChannels, n - 1, subsample, out);
      var r := BlockPlan(name, inChannels, n, subsample, out);
      var front := BlockPlan(name, inChannels, n - 1, subsample, out);
      assert r[..n - 1] == front;
      forall k | 0 <= k < n - 1
        ensures r[k] == front[k]
      {
      }
    }
  }

  /** Unit names within a block are pairwise distinct, so their variable scopes never clash. */
  lemma BlockNamesDistinct(name: string, inChannels: nat, n: nat, subsample: bool, out: nat)
    requires n <= 256 - 97
    ensures var r := BlockPlan(name, inChannels, n, subsample, out);
      forall j, k :: 0 <= j < k < n ==> r[j].name != r[k].name
  {
    BlockLayout(name, inChannels, n, subsample, out);
    var r := BlockPlan(name, inChannels, n, subsample, out);
    forall j, k | 0 <= j < k < n
      ensures r[j].name != r[k].name
    {
      assert r[j].name[|name|] != r[k].name[|name|];
    }
  }

  /**
   * A block of n >= 1 units maps a map of `in` channels to 4 * out channels, shrinking
   * each side by the stride of its first unit only.
   */
  lemma {:induction false} BlockOut(x: FeatureMap, name: string, n: nat, subsample: bool, out: nat)
    requires 1 <= n <= 256 - 97
    ensures UnitsOut(x, BlockPlan(name, x.channels, n, subsample, out)) ==
        FeatureMap(CeilDiv(x.height, Stride(subsample)), CeilDiv(x.width, Stride(subsample)), 4 * out)
  {
    BlockLayout(name, x.channels, n, subsample, out);
    var r := BlockPlan(name, x.channels, n, subsample, out);
    var front := BlockPlan(name, x.channels, n - 1, subsample, out);
    assert r[..n - 1] == front;
    if n == 1 {
      UnitBranchesAgree(x, UnitName(name, 0), subsample, out);
    } else {
      BlockOut(x, name, n - 1, subsample, out);
      BlockLayout(name, x.channels, n - 1, subsample, out);
      var y := UnitsOut(x, front);
      UnitBranchesAgree(y, UnitName(name, n - 1), false, out);
      CeilDivOne(y.height);
      CeilDivOne(y.width);
    }
  }

  /** The loop of `block`: threads the feature map through the units one after another. */
  method Block(x: FeatureMap, name: string, numUnits: nat, subsample: bool, out: nat)
    returns (units: seq<Unit>, y: FeatureMap)
    requires numUnits <= 256 - 97
    ensures units == BlockPlan(name, x.channels, numUnits, subsample, out)
    ensures y == UnitsOut(x, units)
    ensures numUnits >= 1 ==>
      y == FeatureMap(CeilDiv(x.height, Stride(subsample)), CeilDiv(x.width, Stride(subsample)), 4 * out)
  {
    units, y := [], x;
    for k := 0 to numUnits
      invariant units == BlockPlan(name, x.channels, k, subsample, out)
      invariant y == UnitsOut(x, units)
      invariant y.channels == ChannelsAfter(x.channels, units)
    {
      BlockLayout(name, x.channels, k, subsample, out);
      BlockLayout(name, x.channels, k + 1, subsample, out);
      var u := UnitPlan(UnitName(name, k), y.channels, subsample && k == 0, out);
      UnitBranchesAgree(y, UnitName(name, k), subsample && k == 0, out);
      units := units + [u];
      assert units[..k] == BlockPlan(name, x.channels, k, subsample, out);
      y := MainOut(y, u);
    }
    if numUnits >= 1 {
      BlockOut(x, name, numUnits, subsample, out);
    }
  }

  // ---------------------------------------------------------------------------
  // ResNet-50
  // ---------------------------------------------------------------------------

  /** One `block` call of `ResNet50.build`. */
  datatype Stage = Stage(name: string, numUnits: nat, subsample: bool, outChannels: nat)

  /** Blocks 2 to 5 of ResNet-50: 3, 4, 6 and 3 units; every block but the first subsamples. */
  function ResNet50Stages(): seq<Stage> {
    [Stage("2", 3, false, 64), Stage("3", 4, true, 128),
     Stage("4", 6, true, 256), Stage("5", 3, true, 512)]
  }

  /** Scope '1': conv1 (7x7, stride 2, 64 channels) then a 3x3 max pool of stride 2. */
  function Stem(x: FeatureMap): (r: FeatureMap)
    ensures r == FeatureMap(CeilDiv(CeilDiv(x.height, 2), 2), CeilDiv(CeilDiv(x.width, 2), 2), 64)
  {
    var v0 := ConvOut(x, Conv("conv1", 64, 7, 2, "_conv1"));
    FeatureMap(CeilDiv(v0.height, 2), CeilDiv(v0.width, 2), v0.channels)
  }

  /** The feature map after the stem and the given stages, in order. */
  function StagesOut(x: FeatureMap, stages: seq<Stage>): FeatureMap
    requires forall i :: 0 <= i < |stages| ==> stages[i].numUnits <= 256 - 97
    decreases |stages|
  {
    if stages == [] then x
    else
      var s := stages[0];
      StagesOut(UnitsOut(x, StagePlan(x, s)), stages[1..])
  }

  /** The units `block` lays out for one stage on input `x`. */
  function StagePlan(x: FeatureMap, s: Stage): seq<Unit>
    requires s.numUnits <= 256 - 97
  {
    BlockPlan(s.name, x.channels, s.numUnits, s.subsample, s.outChannels)
  }

  /** One stage of n >= 1 units maps its input as `BlockOut` says. */
  lemma StageOut(x: FeatureMap, s: Stage)
    requires 1 <= s.numUnits <= 256 - 97
    ensures UnitsOut(x, StagePlan(x, s)) ==
      FeatureMap(CeilDiv(x.height, Stride(s.subsample)), CeilDiv(x.width, Stride(s.subsample)), 4 * s.outChannels)
  {
    BlockOut(x, s.name, s.numUnits, s.subsample, s.outChannels);
  }

  /** Running a stage of n >= 1 units, then the rest; `y` is the map after the stage. */
  lemma StageStep(x: FeatureMap, st: Stage, rest: seq<Stage>) returns (y: FeatureMap)
    requires 1 <= st.numUnits <= 256 - 97
    requires forall i :: 0 <= i < |rest| ==> rest[i].numUnits <= 256 - 97
    ensures y == FeatureMap(CeilDiv(x.height, Stride(st.subsample)), CeilDiv(x.width, Stride(st.subsample)),
                            4 * st.outChannels)
    ensures StagesOut(x, [st] + rest) == StagesOut(y, rest)
  {
    y := FeatureMap(CeilDiv(x.height, Stride(st.subsample)), CeilDiv(x.width, Stride(st.subsample)),
                    4 * st.outChannels);
    assert ([st] + rest)[0] == st && ([st] + rest)[1..] == rest;
    StageOut(x, st);
  }

  /**
   * Four stages of at least one unit each, of which only the first keeps the size, widen
   * any map to 4 * (the last stage's width) channels and halve each side three times,
   * rounding up.
   */
  lemma FourStages(x: FeatureMap, stages: seq<Stage>)
    requires |stages| == 4 && forall i :: 0 <= i < 4 ==> 1 <= stages[i].numUnits <= 256 - 97
    requires !stages[0].subsample && stages[1].subsample && stages[2].subsample && stages[3].subsample
    ensures StagesOut(x, stages) ==
      FeatureMap(CeilDiv(CeilDiv(CeilDiv(x.height, 2), 2), 2),
                 CeilDiv(CeilDiv(CeilDiv(x.width, 2), 2), 2), 4 * stages[3].outChannels)
  {
    assert stages == [stages[0]] + stages[1..];
    var x1 := StageStep(x, stages[0], stages[1..]);
    assert stages[1..] == [stages[1]] + stages[2..];
    var x2 := StageStep(x1, stages[1], stages[2..]);
    assert stages[2..] == [stages[2]] + stages[3..];
    var x3 := StageStep(x2, stages[2], stages[3..]);
    assert stages[3..] == [stages[3]] + [];
    var x4 := StageStep(x3, stages[3], []);
    CeilDivOne(x.height);
    CeilDivOne(x.width);
  }

  /**
   * Blocks 2 to 5 of ResNet-50 widen any map to 2048 channels and halve each side three
   * times (rounding up), once in each of blocks 3, 4 and 5.
   */
  lemma ResNet50Blocks(x: FeatureMap, stages: seq<Stage>)
    requires stages == ResNet50Stages()
    ensures StagesOut(x, stages) ==
      FeatureMap(CeilDiv(CeilDiv(CeilDiv(x.height, 2), 2), 2),
                 CeilDiv(CeilDiv(CeilDiv(x.width, 2), 2), 2), 2048)
  {
    FourStages(x, stages);
  }

  /**
   * A 224 x 224 RGB crop reaches the end of block 5 as a 7 x 7 map of 2048 channels, the
   * size the final 7 x 7 average pool reduces to a single 2048-wide feature vector.
   */
  lemma ResNet50FeatureMap(x: FeatureMap, stages: seq<Stage>)
    requires x == FeatureMap(224, 224, 3) && stages == ResNet50Stages()
    ensures Stem(x) == FeatureMap(56, 56, 64)
    ensures StagesOut(Stem(x), stages) == FeatureMap(7, 7, 2048)
  {
    assert CeilDiv(224, 2) == 112 && CeilDiv(112, 2) == 56;
    ResNet50Blocks(Stem(x), stages);
    assert CeilDiv(56, 2) == 28 && CeilDiv(28, 2) == 14 && CeilDiv(14, 2) == 7;
  }

  // ---------------------------------------------------------------------------
  // rebatch
  // ---------------------------------------------------------------------------

  /** The crop count `rebatch` reads through `case`: 1 in TRAIN, `numTestCrops` in TEST. */
  function NumCrops(phase: Phase, numTestCrops: nat): (r: nat)
    ensures phase == TRAIN || phase == NONE ==> r == 1
    ensures phase == TEST ==> r == numTestCrops
  {
    var pairs := [(TRAIN, 1), (TEST, numTestCrops)];
    assert pairs[0].0 == TRAIN && pairs[1].0 == TEST;
    Case(phase, pairs)
  }

  /**
   * The phase the net stores decides the crop count: after `train` (or `start`) every row
   * is one crop, after `test` or `online` each image has `numTestCrops` rows.
   */
  method PhaseCrops(net: Net, phase: Phase, numTestCrops: nat) returns (crops: nat)
    modifies net
    ensures net.phase == phase
    ensures crops == (if phase == TEST then numTestCrops else 1)
  {
    if phase == TRAIN {
      net.Train();
    } else if phase == TEST {
      net.Test();
    } else {
      net.Start(phase);
    }
    crops := NumCrops(net.phase, numTestCrops);
  }

  /**
   * `ImageUtil.get_size`: the slice `[1:3]` of a shape, so the dimensions at positions 1
   * and 2 as far as the shape has them.
   */
  function GetSize(shape: seq<nat>): (r: seq<nat>)
    ensures |r| == (if |shape| <= 1 then 0 else if |shape| == 2 then 1 else 2)
    ensures forall i :: 0 <= i < |r| ==> r[i] == shape[i + 1]
  {
    if |shape| <= 1 then [] else shape[1..if |shape| < 3 then |shape| else 3]
  }

  /**
   * `rebatch`: a reshape to (rows / crops, crops) + get_size(shape), where the rows are the
   * leading dimension and `/` is the integer division of two non-negative int32 tensors.
   * The graph fails on a scalar (it has no rows), when there are no crops (an integer
   * division by zero), and when the target does not hold as many elements as the input
   * (a reshape that changes the element count).
   */
  function Rebatch(phase: Phase, numTestCrops: nat, shape: seq<nat>): (r: Result<seq<nat>>)
    ensures |shape| == 0 || NumCrops(phase, numTestCrops) == 0 ==> r.Err?
    ensures r.Ok? ==> |shape| >= 1 && |r.value| >= 2
    ensures r.Ok? ==> r.value[1] == NumCrops(phase, numTestCrops) && r.value[2..] == GetSize(shape)
    ensures r.Ok? ==> r.value[0] * r.value[1] <= shape[0] && Product(r.value) == Product(shape)
  {
    if |shape| == 0 then Err("Index out of range: the input has no rows")
    else
      var crops := NumCrops(phase, numTestCrops);
      if crops == 0 then Err("Integer division by zero")
      else
        var target := RebatchTarget(shape, crops);
        if Product(target) != Product(shape) then Err("Input to reshape has the wrong number of values")
        else Ok(target)
  }

  /** The shape `rebatch` asks the reshape for: (rows / crops, crops) + get_size(shape). */
  function RebatchTarget(shape: seq<nat>, crops: nat): (r: seq<nat>)
    requires |shape| >= 1 && crops > 0
    ensures |r| >= 2 && r[0] == shape[0] / crops && r[1] == crops && r[2..] == GetSize(shape)
    ensures r[0] * r[1] <= shape[0] && Product(r) == (r[0] * crops) * Product(GetSize(shape))
  {
    var r := [shape[0] / crops, crops] + GetSize(shape);
    assert r[2..] == GetSize(shape);
    ProductPairFront(shape[0] / crops, crops, GetSize(shape));
    r
  }

  /**
   * On a matrix (or vector) of rows whose rows are not empty, the reshape succeeds exactly
   * when the crop count is positive and divides the rows, and then splits the rows as
   * `SplitLeading` does, which flattening undoes.
   */
  lemma RebatchRows(phase: Phase, numTestCrops: nat, shape: seq<nat>)
    requires 1 <= |shape| <= 3 && Product(shape[1..]) > 0
    ensures var crops := NumCrops(phase, numTestCrops);
      Rebatch(phase, numTestCrops, shape).Ok? <==> crops > 0 && shape[0] % crops == 0
    ensures var r := Rebatch(phase, numTestCrops, shape);
      r.Ok? ==> r.value == SplitLeading(shape, NumCrops(phase, numTestCrops)) && FlattenLeading(r.value) == shape
  {
    var crops := NumCrops(phase, numTestCrops);
    if crops > 0 {
      var rest := shape[1..];
      assert GetSize(shape) == rest;
      var t := RebatchTarget(shape, crops);
      assert Product(shape) == shape[0] * Product(rest);
      CancelIff(shape[0], crops, Product(rest));
      assert t == SplitLeading(shape, crops);
    }
  }

  /** With p > 0, (a / c) * c * p == a * p holds exactly when c divides a. */
  lemma CancelIff(a: nat, c: nat, p: nat)
    requires c > 0 && p > 0
    ensures ((a / c) * c) * p == a * p <==> a % c == 0
  {
    if ((a / c) * c) * p == a * p {
      MulCancel((a / c) * c, a, p);
    }
  }

  /**
   * An image batch (four dimensions with a channel axis wider than 1) never survives the
   * reshape: `get_size` keeps only height and width, so the target loses the channels.
   */
  lemma RebatchDropsChannels(phase: Phase, numTestCrops: nat, shape: seq<nat>)
    requires |shape| >= 4 && Product(shape) > 0 && Product(shape[3..]) > 1
    ensures Rebatch(phase, numTestCrops, shape).Err?
  {
    var crops := NumCrops(phase, numTestCrops);
    if crops > 0 {
      var t := RebatchTarget(shape, crops);
      var size := GetSize(shape);
      assert size == [shape[1], shape[2]];
      ProductPair(shape[1], shape[2]);
      var m := Product(size);
      var rest := Product(shape[3..]);
      assert shape == [shape[0], shape[1]] + ([shape[2]] + shape[3..]);
      ProductPairFront(shape[0], shape[1], [shape[2]] + shape[3..]);
      assert ([shape[2]] + shape[3..])[1..] == shape[3..];
      TooFewElements(t[0] * crops, shape[0], shape[1], shape[2], rest);
    }
  }

  /** a * (s1 * s2) falls short of s0 * s1 * (s2 * rest) when a <= s0, rest > 1 and that is positive. */
  lemma TooFewElements(a: nat, s0: nat, s1: nat, s2: nat, rest: nat)
    requires a <= s0 && rest > 1 && (s0 * s1) * (s2 * rest) > 0
    ensures a * (s1 * s2) < (s0 * s1) * (s2 * rest)
  {
    var m := s1 * s2;
    assert (s0 * s1) * (s2 * rest) == (s0 * m) * rest;
    MulLe(a, s0, m);
    assert s0 * m > 0;
    MulMonotone(rest, s0 * m);
    assert (s0 * m) * rest == (s0 * m) * (rest - 1) + s0 * m;
    MulMonotone(rest - 1, s0 * m);
  }

  /** In TRAIN every row of a matrix (or vector) is its own image with a single crop. */
  lemma RebatchTrain(numTestCrops: nat, shape: seq<nat>)
    requires 1 <= |shape| <= 3
    ensures Rebatch(TRAIN, numTestCrops, shape) == Ok([shape[0], 1] + shape[1..])
  {
    assert GetSize(shape) == shape[1..];
    assert Product([shape[0], 1] + shape[1..]) == shape[0] * (1 * Product(shape[1..]));
  }

  /**
   * In TEST, the network maps the b * K rows `Batch.test` made by folding K crops per image
   * to one feature (or probability) vector per row; `rebatch` groups those rows back into
   * b images of K crops.
   */
  lemma RebatchUndoesTestFold(b: nat, crops: nat, size: seq<nat>)
    requires crops > 0 && |size| <= 2
    ensures Rebatch(TEST, crops, FlattenLeading([b, crops] + size)) == Ok([b, crops] + size)
  {
    var shape := [b, crops] + size;
    var rows := FlattenLeading(shape);
    assert rows == [b * crops] + size;
    assert GetSize(rows) == size;
    MulDivCancel(b, crops);
    assert Product(shape) == b * (crops * Product(size));
    assert Product(rows) == (b * crops) * Product(size);
  }

  // ---------------------------------------------------------------------------
  // build
  // ---------------------------------------------------------------------------

  /**
   * The assertion at the top of `ResNet50.build`: the blob must zip to exactly one
   * (image, label) pair. A value blob has no images and fails as well.
   */
  function BuildInput(blob: Blob): (r: Result<(Tensor, Tensor)>)
    ensures r.Ok? <==> blob.ImageLabelBlob? && |AsTupleList(blob)| == 1
    ensures r.Ok? ==> r.value == (blob.images[0], blob.labels[0])
  {
    if !blob.ImageLabelBlob? then Err("Blob has no images")
    else if |AsTupleList(blob)| != 1 then Err("Must pass in a single pair of image and label")
    else Ok(AsTupleList(blob)[0])
  }
}
