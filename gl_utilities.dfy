/**
 * The jitter-sample table and the accumulation-buffer supersampling pass of
 * `org.progx.jogl.GLUtilities`.  GL calls are recorded as a trace of
 * operations rather than executed.
 */
module Jogl {
  import opened Wrappers

  const INT_MIN: int := -0x8000_0000
  const INT_MAX: int := 0x7FFF_FFFF

  predicate IsInt(x: int) { INT_MIN <= x <= INT_MAX }

  /** A `Point2d`: a sub-pixel offset, with double components taken as reals. */
  datatype Point2d = Point2d(x: real, y: real)

  // The sample sets of the table, one per key, in the order the table lists them.

  const Jitter2: seq<Point2d> := [
    Point2d(0.246490, 0.249999), Point2d(-0.246490, -0.249999)
  ]

  const Jitter3: seq<Point2d> := [
    Point2d(-0.373411, -0.250550), Point2d(0.256263, 0.368119), Point2d(0.117148, -0.117570)
  ]

  const Jitter4: seq<Point2d> := [
    Point2d(-0.208147, 0.353730), Point2d(0.203849, -0.353780), Point2d(-0.292626, -0.149945),
    Point2d(0.296924, 0.149994)
  ]

  const Jitter8: seq<Point2d> := [
    Point2d(-0.334818, 0.435331), Point2d(0.286438, -0.393495), Point2d(0.459462, 0.141540),
    Point2d(-0.414498, -0.192829), Point2d(-0.183790, 0.082102), Point2d(-0.079263, -0.317383),
    Point2d(0.102254, 0.299133), Point2d(0.164216, -0.054399)
  ]

  const Jitter15: seq<Point2d> := [
    Point2d(0.285561, 0.188437), Point2d(0.360176, -0.065688), Point2d(-0.111751, 0.275019),
    Point2d(-0.055918, -0.215197), Point2d(-0.080231, -0.470965), Point2d(0.138721, 0.409168),
    Point2d(0.384120, 0.458500), Point2d(-0.454968, 0.134088), Point2d(0.179271, -0.331196),
    Point2d(-0.307049, -0.364927), Point2d(0.105354, -0.010099), Point2d(-0.154180, 0.021794),
    Point2d(-0.370135, -0.116425), Point2d(0.451636, -0.300013), Point2d(-0.370610, 0.387504)
  ]

  const Jitter24: seq<Point2d> := [
    Point2d(0.030245, 0.136384), Point2d(0.018865, -0.348867), Point2d(-0.350114, -0.472309),
    Point2d(0.222181, 0.149524), Point2d(-0.393670, -0.266873), Point2d(0.404568, 0.230436),
    Point2d(0.098381, 0.465337), Point2d(0.462671, 0.442116), Point2d(0.400373, -0.212720),
    Point2d(-0.409988, 0.263345), Point2d(-0.115878, -0.001981), Point2d(0.348425, -0.009237),
    Point2d(-0.464016, 0.066467), Point2d(-0.138674, -0.468006), Point2d(0.144932, -0.022780),
    Point2d(-0.250195, 0.150161), Point2d(-0.181400, -0.264219), Point2d(0.196097, -0.234139),
    Point2d(-0.311082, -0.078815), Point2d(0.268379, 0.366778), Point2d(-0.040601, 0.327109),
    Point2d(-0.234392, 0.354659), Point2d(-0.003102, -0.154402), Point2d(0.297997, -0.417965)
  ]

  // The 66-sample set is written in two halves of 33.
  const Jitter66Front: seq<Point2d> := [
    Point2d(0.266377, -0.218171), Point2d(-0.170919, -0.429368), Point2d(0.047356, -0.387135),
    Point2d(-0.430063, 0.363413), Point2d(-0.221638, -0.313768), Point2d(0.124758, -0.197109),
    Point2d(-0.400021, 0.482195), Point2d(0.247882, 0.152010), Point2d(-0.286709, -0.470214),
    Point2d(-0.426790, 0.004977), Point2d(-0.361249, -0.104549), Point2d(-0.040643, 0.123453),
    Point2d(-0.189296, 0.438963), Point2d(-0.453521, -0.299889), Point2d(0.408216, -0.457699),
    Point2d(0.328973, -0.101914), Point2d(-0.055540, -0.477952), Point2d(0.194421, 0.453510),
    Point2d(0.404051, 0.224974), Point2d(0.310136, 0.419700), Point2d(-0.021743, 0.403898),
    Point2d(-0.466210, 0.248839), Point2d(0.341369, 0.081490), Point2d(0.124156, -0.016859),
    Point2d(-0.461321, -0.176661), Point2d(0.013210, 0.234401), Point2d(0.174258, -0.311854),
    Point2d(0.294061, 0.263364), Point2d(-0.114836, 0.328189), Point2d(0.041206, -0.106205),
    Point2d(0.079227, 0.345021), Point2d(-0.109319, -0.242380), Point2d(0.425005, -0.332397)
  ]

  const Jitter66Back: seq<Point2d> := [
    Point2d(0.009146, 0.015098), Point2d(-0.339084, -0.355707), Point2d(-0.224596, -0.189548),
    Point2d(0.083475, 0.117028), Point2d(0.295962, -0.334699), Point2d(0.452998, 0.025397),
    Point2d(0.206511, -0.104668), Point2d(0.447544, -0.096004), Point2d(-0.108006, -0.002471),
    Point2d(-0.380810, 0.130036), Point2d(-0.242440, 0.186934), Point2d(-0.200363, 0.070863),
    Point2d(-0.344844, -0.230814), Point2d(0.408660, 0.345826), Point2d(-0.233016, 0.305203),
    Point2d(0.158475, -0.430762), Point2d(0.486972, 0.139163), Point2d(-0.301610, 0.009319),
    Point2d(0.282245, -0.458671), Point2d(0.482046, 0.443890), Point2d(-0.121527, 0.210223),
    Point2d(-0.477606, -0.424878), Point2d(-0.083941, -0.121440), Point2d(-0.345773, 0.253779),
    Point2d(0.234646, 0.034549), Point2d(0.394102, -0.210901), Point2d(-0.312571, 0.397656),
    Point2d(0.200906, 0.333293), Point2d(0.018703, -0.261792), Point2d(-0.209349, -0.065383),
    Point2d(0.076248, 0.478538), Point2d(-0.073036, -0.355064), Point2d(0.145087, 0.221726)
  ]

  const Jitter66: seq<Point2d> := Jitter66Front + Jitter66Back

  /** The keys of the table: the sample counts it offers. */
  const JitterKeys: set<int> := {2, 3, 4, 8, 15, 24, 66}

  /** The jitter table as `initJitterMap` builds it. */
  const JitterTable: map<int, seq<Point2d>> :=
    map[2 := Jitter2, 3 := Jitter3, 4 := Jitter4, 8 := Jitter8, 15 := Jitter15, 24 := Jitter24, 66 := Jitter66]

  /**
   * The order in which the table's keys come out of a `HashMap` of
   * capacity 7 on current JDKs; the model takes the order as a parameter
   * and uses this one for concrete results.
   */
  const KeyOrder: seq<int> := [2, 66, 3, 4, 8, 24, 15]

  /** `order` enumerates the table's keys, each exactly once. */
  predicate IsKeyOrder(order: seq<int>) {
    (forall i :: 0 <= i < |order| ==> order[i] in JitterKeys) &&
    (forall k :: k in JitterKeys ==> k in order) &&
    (forall i, j :: 0 <= i < j < |order| ==> order[i] != order[j])
  }

  /** Every offset of `samples` lies strictly inside the pixel. */
  predicate SubPixel(samples: seq<Point2d>) {
    forall i :: 0 <= i < |samples| ==>
      -0.5 < samples[i].x < 0.5 && -0.5 < samples[i].y < 0.5
  }

  lemma KeyOrderEnumeratesTable()
    ensures IsKeyOrder(KeyOrder)
  {
  }

  lemma JitterTableKeys()
    ensures JitterTable.Keys == JitterKeys
  {
  }

  /** The keys are exactly 2, 3, 4, 8, 15, 24 and 66, and each key holds that many offsets, all sub-pixel. */
  lemma JitterTableShape()
    ensures JitterTable.Keys == JitterKeys
    ensures forall k :: k in JitterTable ==> |JitterTable[k]| == k && SubPixel(JitterTable[k])
  {
    SmallSetsSubPixel();
    LargeSetsSubPixel();
  }

  lemma SmallSetsSubPixel()
    ensures SubPixel(Jitter2) && SubPixel(Jitter3) && SubPixel(Jitter4) && SubPixel(Jitter8)
  {
  }

  lemma LargeSetsSubPixel()
    ensures SubPixel(Jitter15) && SubPixel(Jitter24) && SubPixel(Jitter66)
  {
    Jitter15SubPixel();
    Jitter24SubPixel();
    Jitter66FrontSubPixel();
    Jitter66BackSubPixel();
    SubPixelConcat(Jitter66Front, Jitter66Back);
  }

  lemma Jitter15SubPixel()
    ensures SubPixel(Jitter15)
  {
  }

  lemma Jitter24SubPixel()
    ensures SubPixel(Jitter24)
  {
  }

  lemma Jitter66FrontSubPixel()
    ensures SubPixel(Jitter66Front)
  {
  }

  lemma Jitter66BackSubPixel()
    ensures SubPixel(Jitter66Back)
  {
  }

  lemma SubPixelConcat(a: seq<Point2d>, b: seq<Point2d>)
    requires SubPixel(a) && SubPixel(b)
    ensures SubPixel(a + b)
  {
    forall i | 0 <= i < |a + b|
      ensures -0.5 < (a + b)[i].x < 0.5 && -0.5 < (a + b)[i].y < 0.5
    {
      if i >= |a| {
        assert (a + b)[i] == b[i - |a|];
      }
    }
  }

  // ---------------------------------------------------------------------
  // Java `int` arithmetic used by the fallback search

  /** The two's-complement wrap-around of a 32-bit `int` result. */
  function Wrap32(x: int): (r: int)
    ensures IsInt(r)
    ensures (x - r) % 0x1_0000_0000 == 0
    ensures IsInt(x) ==> r == x
  {
    (x - INT_MIN) % 0x1_0000_0000 + INT_MIN
  }

  /** `Math.abs` on an `int`: the magnitude, except that `Integer.MIN_VALUE` is its own absolute value. */
  function Abs32(x: int): (r: int)
    requires IsInt(x)
    ensures IsInt(r)
    ensures x != INT_MIN ==> r == Abs(x)
    ensures x == INT_MIN ==> r == INT_MIN
  {
    if x < 0 then Wrap32(-x) else x
  }

  function Abs(x: int): int { if x < 0 then -x else x }

  /** `Math.abs(value - sampleAmount)` as evaluated in 32-bit arithmetic. */
  function Gap(value: int, amount: int): int
    requires IsInt(value) && IsInt(amount)
  {
    Abs32(Wrap32(value - amount))
  }

  /**
   * The pair (difference, newSampleAmount) after the fallback loop has
   * looked at the keys `keys`, in that order.
   */
  function Scan(keys: seq<int>, amount: int): (int, int)
    requires forall i :: 0 <= i < |keys| ==> IsInt(keys[i])
    requires IsInt(amount)
  {
    if keys == [] then (INT_MAX, 0)
    else
      var (difference, best) := Scan(keys[..|keys| - 1], amount);
      var value := keys[|keys| - 1];
      if Gap(value, amount) < difference then (Gap(value, amount), value) else (difference, best)
  }

  /** The key whose samples `getJitterSamples(amount)` returns: the amount itself if it is a key, else the fallback's pick. */
  function Chosen(amount: int, order: seq<int>): int
    requires IsInt(amount) && IsKeyOrder(order)
  {
    if amount in JitterKeys then amount else Scan(order, amount).1
  }

  /**
   * The fallback ends on one of the keys it scanned as soon as one of them
   * is strictly closer than `Integer.MAX_VALUE`; if none is, it keeps its
   * initial state.
   */
  lemma {:induction false} ScanPicksCloseKey(keys: seq<int>, amount: int)
    requires IsInt(amount)
    requires forall i :: 0 <= i < |keys| ==> IsInt(keys[i])
    ensures (forall i :: 0 <= i < |keys| ==> Gap(keys[i], amount) >= INT_MAX) ==> Scan(keys, amount) == (INT_MAX, 0)
    ensures (exists i :: 0 <= i < |keys| && Gap(keys[i], amount) < INT_MAX) ==> Scan(keys, amount).1 in keys
  {
    if keys != [] {
      var front := keys[..|keys| - 1];
      ScanPicksCloseKey(front, amount);
      forall i | 0 <= i < |front| ensures front[i] == keys[i] { }
      if exists i :: 0 <= i < |front| && Gap(front[i], amount) < INT_MAX {
        assert Scan(front, amount).1 in keys;
      }
    }
  }

  /** Of the keys 2 and 3, which differ by one, at least one is closer than `Integer.MAX_VALUE` to any `int`. */
  lemma TwoOrThreeIsClose(amount: int)
    requires IsInt(amount)
    ensures Gap(2, amount) < INT_MAX || Gap(3, amount) < INT_MAX
  {
    if amount >= INT_MIN + 4 {
      assert Gap(2, amount) == Abs(2 - amount);
    } else if amount == INT_MIN + 3 {
      assert Wrap32(3 - amount) == INT_MIN;
    } else if amount == INT_MIN + 2 {
      assert Wrap32(2 - amount) == INT_MIN;
    } else {
      assert Wrap32(2 - amount) == 2 - amount - 0x1_0000_0000;
    }
  }

  /**
   * `getJitterSamples` never returns null: whatever `int` is requested, and
   * whatever order the keys are enumerated in, the chosen key is in the table.
   */
  lemma ChosenIsKey(amount: int, order: seq<int>)
    requires IsInt(amount) && IsKeyOrder(order)
    ensures Chosen(amount, order) in JitterKeys
  {
    if amount !in JitterKeys {
      TwoOrThreeIsClose(amount);
      assert 2 in JitterKeys && 3 in JitterKeys;
      var i2 :| 0 <= i2 < |order| && order[i2] == 2;
      var i3 :| 0 <= i3 < |order| && order[i3] == 3;
      assert Gap(order[i2], amount) < INT_MAX || Gap(order[i3], amount) < INT_MAX;
      ScanPicksCloseKey(order, amount);
    }
  }

  /**
   * `b`, at distance `d` from `amount`, is as close to `amount` as any of
   * `keys` and is the first of them that close.
   */
  predicate NearestPick(keys: seq<int>, amount: int, d: int, b: int) {
    d == Abs(b - amount) &&
    (forall i :: 0 <= i < |keys| ==> d <= Abs(keys[i] - amount)) &&
    (exists i :: 0 <= i < |keys| && keys[i] == b && forall j :: 0 <= j < i ==> Abs(keys[j] - amount) > d)
  }

  lemma NearestPickExtend(front: seq<int>, value: int, amount: int, d: int, b: int)
    requires NearestPick(front, amount, d, b)
    ensures Abs(value - amount) < d ==> NearestPick(front + [value], amount, Abs(value - amount), value)
    ensures Abs(value - amount) >= d ==> NearestPick(front + [value], amount, d, b)
  {
    var keys := front + [value];
    var i0 :| 0 <= i0 < |front| && front[i0] == b && forall j :: 0 <= j < i0 ==> Abs(front[j] - amount) > d;
    assert keys[i0] == b;
    assert keys[|front|] == value;
  }

  /**
   * Without wrap-around the fallback is a nearest-key search: it ends on a
   * scanned key at least as close as every other, and the first such key in
   * scan order, because only a strictly smaller difference replaces the pick.
   */
  lemma {:induction false} ScanFindsNearest(keys: seq<int>, amount: int)
    requires IsInt(amount)
    requires forall i :: 0 <= i < |keys| ==> IsInt(keys[i]) && Gap(keys[i], amount) == Abs(keys[i] - amount)
    requires exists i :: 0 <= i < |keys| && Abs(keys[i] - amount) < INT_MAX
    ensures NearestPick(keys, amount, Scan(keys, amount).0, Scan(keys, amount).1)
  {
    var front := keys[..|keys| - 1];
    var value := keys[|keys| - 1];
    assert keys == front + [value];
    forall i | 0 <= i < |front| ensures front[i] == keys[i] { }
    var (d0, b0) := Scan(front, amount);
    var gap := Abs(value - amount);
    assert Gap(value, amount) == gap;
    assert Scan(keys, amount) == if gap < d0 then (gap, value) else (d0, b0);
    if exists i :: 0 <= i < |front| && Abs(front[i] - amount) < INT_MAX {
      ScanFindsNearest(front, amount);
      NearestPickExtend(front, value, amount, d0, b0);
    } else {
      ScanPicksCloseKey(front, amount);
      assert gap < INT_MAX;
      NearestPickFirstClose(front, value, amount);
    }
  }

  lemma NearestPickFirstClose(front: seq<int>, value: int, amount: int)
    requires forall i :: 0 <= i < |front| ==> Abs(front[i] - amount) >= INT_MAX
    requires Abs(value - amount) < INT_MAX
    ensures NearestPick(front + [value], amount, Abs(value - amount), value)
  {
    var keys := front + [value];
    assert keys[|front|] == value;
    assert forall i :: 0 <= i < |front| ==> keys[i] == front[i];
  }

  /**
   * For every request from `Integer.MIN_VALUE + 67` up that is not a key,
   * the chosen key minimises |key - amount|, and ties go to the key
   * enumerated first.
   */
  lemma NearestKey(amount: int, order: seq<int>)
    requires INT_MIN + 67 <= amount <= INT_MAX && IsKeyOrder(order)
    requires amount !in JitterKeys
    ensures Chosen(amount, order) in JitterKeys
    ensures forall k :: k in JitterKeys ==> Abs(Chosen(amount, order) - amount) <= Abs(k - amount)
    ensures exists i :: 0 <= i < |order| && order[i] == Chosen(amount, order) &&
              forall j :: 0 <= j < i ==> Abs(order[j] - amount) > Abs(Chosen(amount, order) - amount)
  {
    ChosenIsKey(amount, order);
    forall i | 0 <= i < |order|
      ensures IsInt(order[i]) && Gap(order[i], amount) == Abs(order[i] - amount)
    {
      KeyInRange(order[i]);
      NoWrapAboveMin(order[i], amount);
    }
    assert 2 in JitterKeys;
    var i2 :| 0 <= i2 < |order| && order[i2] == 2;
    assert Abs(order[i2] - amount) < INT_MAX;
    ScanFindsNearest(order, amount);
    NearestPickCoversKeys(order, amount, Scan(order, amount).0, Scan(order, amount).1);
  }

  lemma NearestPickCoversKeys(order: seq<int>, amount: int, d: int, b: int)
    requires NearestPick(order, amount, d, b)
    requires forall k :: k in JitterKeys ==> k in order
    ensures forall k :: k in JitterKeys ==> Abs(b - amount) <= Abs(k - amount)
  {
    forall k | k in JitterKeys
      ensures Abs(b - amount) <= Abs(k - amount)
    {
      var i :| 0 <= i < |order| && order[i] == k;
    }
  }

  lemma KeyInRange(k: int)
    requires k in JitterKeys
    ensures 2 <= k <= 66
  {
  }

  /** From `Integer.MIN_VALUE + 67` up, subtracting the request from a key never overflows. */
  lemma NoWrapAboveMin(k: int, amount: int)
    requires 2 <= k <= 66 && INT_MIN + 67 <= amount <= INT_MAX
    ensures Gap(k, amount) == Abs(k - amount)
  {
    assert IsInt(k - amount);
  }

  /** On current JDKs a request for 6 samples, equally far from 4 and 8, gets the 4 samples. */
  lemma SixSamplesGiveFour()
    ensures Chosen(6, KeyOrder) == 4
  {
    KeyOrderEnumeratesTable();
    NearestKey(6, KeyOrder);
    var k := Chosen(6, KeyOrder);
    assert 4 in JitterKeys;
    assert Abs(k - 6) <= 2;
    assert k == 4 || k == 8;
    var i :| 0 <= i < |KeyOrder| && KeyOrder[i] == k &&
             forall j :: 0 <= j < i ==> Abs(KeyOrder[j] - 6) > Abs(k - 6);
  }

  /**
   * Just above `Integer.MIN_VALUE` the subtraction wraps: a request for
   * `Integer.MIN_VALUE + 66` is nearest to 2 but gets the 66 samples, since
   * 66 - amount overflows to `Integer.MIN_VALUE`, whose `Math.abs` is negative.
   */
  lemma WrappedRequestGetsSixtySix()
    ensures Abs(2 - (INT_MIN + 66)) < Abs(66 - (INT_MIN + 66))
    ensures Chosen(INT_MIN + 66, KeyOrder) == 66
  {
    KeyOrderEnumeratesTable();
    var amount := INT_MIN + 66;
    assert Gap(2, amount) == INT_MAX - 63;
    assert Gap(66, amount) == INT_MIN by {
      assert Wrap32(66 - amount) == INT_MIN;
    }
    assert Scan([], amount) == (INT_MAX, 0);
    assert KeyOrder[..1][..0] == [];
    assert Scan(KeyOrder[..1], amount) == (INT_MAX - 63, 2);
    assert KeyOrder[..2][..1] == KeyOrder[..1];
    assert Scan(KeyOrder[..2], amount) == (INT_MIN, 66);
    var k := 2;
    while k < 7
      invariant 2 <= k <= 7
      invariant Scan(KeyOrder[..k], amount) == (INT_MIN, 66)
    {
      assert KeyOrder[..k + 1][..k] == KeyOrder[..k];
      k := k + 1;
    }
    assert KeyOrder[..7] == KeyOrder;
  }

  /**
   * The samples `getJitterSamples(amount)` returns: the table's set for the chosen key,
   * as many samples as the chosen key says, all sub-pixel, and exactly the
   * requested number when that number is a key.
   */
  function JitterSamples(amount: int, order: seq<int>): (samples: seq<Point2d>)
    requires IsInt(amount) && IsKeyOrder(order)
    ensures |samples| in JitterKeys && |samples| == Chosen(amount, order)
    ensures amount in JitterKeys ==> |samples| == amount
    ensures SubPixel(samples)
  {
    ChosenIsKey(amount, order);
    JitterTableShape();
    JitterTable[Chosen(amount, order)]
  }

  /** The samples returned are exactly the table's set for the chosen key. */
  lemma JitterSamplesIsTableSet(amount: int, order: seq<int>)
    requires IsInt(amount) && IsKeyOrder(order)
    ensures Chosen(amount, order) in JitterTable
    ensures JitterSamples(amount, order) == JitterTable[Chosen(amount, order)]
  {
    ChosenIsKey(amount, order);
    JitterTableKeys();
  }

  // ---------------------------------------------------------------------
  // The supersampling pass as a trace of GL operations

  datatype GlOp =
    | ReadViewport                     // glGetIntegerv(GL_VIEWPORT)
    | ClearAccumBuffer                 // glClear(GL_ACCUM_BUFFER_BIT)
    | ClearColorAndDepth               // glClear(GL_COLOR_BUFFER_BIT | GL_DEPTH_BUFFER_BIT)
    | Jitter(pixdx: real, pixdy: real) // setPerspective with the sample's sub-pixel offset
    | RenderScene                      // scene.render(gl)
    | Accumulate(weight: real)         // glAccum(GL_ACCUM, weight)
    | AccumReturn                      // glAccum(GL_RETURN, 1)
    | Flush                            // glFlush()

  /** One pass of the supersampling loop for one sample out of `n`. */
  function Pass(sample: Point2d, n: nat): seq<GlOp>
    requires n > 0
  {
    [ClearColorAndDepth, Jitter(sample.x, sample.y), RenderScene, Accumulate(1.0 / n as real)]
  }

  /** The passes of the supersampling loop over `samples`, in order. */
  function Passes(samples: seq<Point2d>, n: nat): (ops: seq<GlOp>)
    requires n > 0
    ensures |ops| == 4 * |samples|
  {
    if samples == [] then [] else Passes(samples[..|samples| - 1], n) + Pass(samples[|samples| - 1], n)
  }

  /**
   * The GL operations `renderAntiAliased(gl, scene, aa)` performs, given the
   * samples `getJitterSamples(aa)` returns.
   */
  function AntiAliasedTrace(aa: int, samples: seq<Point2d>): seq<GlOp>
    requires |samples| > 0
  {
    if aa <= 1 then [RenderScene]
    else [ReadViewport, ClearAccumBuffer] + Passes(samples, |samples|) + [AccumReturn, Flush]
  }

  /** The number of times a trace renders the scene. */
  function Renders(ops: seq<GlOp>): nat {
    if ops == [] then 0 else (if ops[0] == RenderScene then 1 else 0) + Renders(ops[1..])
  }

  /** The total weight a trace accumulates. */
  function Weight(ops: seq<GlOp>): real {
    if ops == [] then 0.0 else (if ops[0].Accumulate? then ops[0].weight else 0.0) + Weight(ops[1..])
  }

  lemma {:induction false} CountsOfConcat(a: seq<GlOp>, b: seq<GlOp>)
    ensures Renders(a + b) == Renders(a) + Renders(b)
    ensures Weight(a + b) == Weight(a) + Weight(b)
  {
    if a == [] {
      assert a + b == b;
    } else {
      CountsOfConcat(a[1..], b);
      assert (a + b)[1..] == a[1..] + b;
      assert (a + b)[0] == a[0];
    }
  }

  /** A single pass renders once and accumulates 1/n. */
  lemma PassCounts(sample: Point2d, n: nat)
    requires n > 0
    ensures Renders(Pass(sample, n)) == 1
    ensures Weight(Pass(sample, n)) == 1.0 / n as real
  {
    var w := 1.0 / n as real;
    var last: seq<GlOp> := [Accumulate(w)];
    assert last[1..] == [];
    assert Renders(last) == 0 && Weight(last) == w;
    var render: seq<GlOp> := [RenderScene] + last;
    assert render[1..] == last;
    assert Renders(render) == 1 && Weight(render) == w;
    var jitter: seq<GlOp> := [Jitter(sample.x, sample.y)] + render;
    assert jitter[1..] == render;
    assert Renders(jitter) == 1 && Weight(jitter) == w;
    var pass: seq<GlOp> := [ClearColorAndDepth] + jitter;
    assert pass[1..] == jitter;
    assert pass == Pass(sample, n);
  }

  /** Every sample gets one pass, and each pass renders the scene once. */
  lemma {:induction false} PassesRender(samples: seq<Point2d>, n: nat)
    requires n > 0
    ensures Renders(Passes(samples, n)) == |samples|
  {
    if samples != [] {
      var front := samples[..|samples| - 1];
      PassesRender(front, n);
      CountsOfConcat(Passes(front, n), Pass(samples[|samples| - 1], n));
      PassCounts(samples[|samples| - 1], n);
    }
  }

  /** Each pass accumulates 1/n. */
  lemma {:induction false} PassesWeight(samples: seq<Point2d>, n: nat)
    requires n > 0
    ensures Weight(Passes(samples, n)) == |samples| as real * (1.0 / n as real)
  {
    if samples != [] {
      var front := samples[..|samples| - 1];
      var w := 1.0 / n as real;
      PassesWeight(front, n);
      CountsOfConcat(Passes(front, n), Pass(samples[|samples| - 1], n));
      PassCounts(samples[|samples| - 1], n);
      assert Weight(Passes(samples, n)) == |front| as real * w + w;
      assert |front| as real * w + w == (|front| as real + 1.0) * w;
    }
  }

  /** Pass `i` of the loop clears, jitters by sample `i`, renders and accumulates 1/n. */
  lemma {:induction false} PassesInOrder(samples: seq<Point2d>, n: nat, i: nat)
    requires n > 0 && i < |samples|
    ensures Passes(samples, n)[4 * i .. 4 * i + 4] == Pass(samples[i], n)
  {
    var front := samples[..|samples| - 1];
    if i < |front| {
      PassesInOrder(front, n, i);
      assert Passes(samples, n)[..4 * |front|] == Passes(front, n);
    }
  }

  /**
   * Without supersampling the scene is rendered once and no buffer is
   * touched.  Otherwise there is one pass per jitter sample, each clearing,
   * jittering, rendering and accumulating 1/n, the weights add up to 1, and
   * a single RETURN follows the passes.
   */
  lemma AntiAliasedTraceShape(aa: int, samples: seq<Point2d>)
    requires |samples| > 0
    ensures var ops := AntiAliasedTrace(aa, samples);
            aa <= 1 ==> |ops| == 1 && Renders(ops) == 1 && Weight(ops) == 0.0
    ensures var ops := AntiAliasedTrace(aa, samples);
            var n := |samples|;
            aa > 1 ==>
              |ops| == 4 * n + 4 && ops[..2] == [ReadViewport, ClearAccumBuffer] &&
              (forall i :: 0 <= i < n ==> ops[2 + 4 * i .. 6 + 4 * i] == Pass(samples[i], n)) &&
              ops[4 * n + 2 ..] == [AccumReturn, Flush] &&
              Renders(ops) == n && Weight(ops) == 1.0
  {
    var ops := AntiAliasedTrace(aa, samples);
    if aa <= 1 {
      assert ops[1..] == [];
    } else {
      var n := |samples|;
      var head: seq<GlOp> := [ReadViewport, ClearAccumBuffer];
      var tail: seq<GlOp> := [AccumReturn, Flush];
      var passes := Passes(samples, n);
      assert ops == head + passes + tail;
      forall i | 0 <= i < n
        ensures ops[2 + 4 * i .. 6 + 4 * i] == Pass(samples[i], n)
      {
        PassesInOrder(samples, n, i);
        assert ops[2 + 4 * i .. 6 + 4 * i] == passes[4 * i .. 4 * i + 4];
      }
      PassesRender(samples, n);
      PassesWeight(samples, n);
      CountsOfConcat(head, passes);
      CountsOfConcat(head + passes, tail);
      assert Renders(head) == 0 && Weight(head) == 0.0 by {
        assert head[1..][1..] == [];
      }
      assert Renders(tail) == 0 && Weight(tail) == 0.0 by {
        assert tail[1..][1..] == [];
      }
      assert n as real * (1.0 / n as real) == 1.0;
    }
  }

  // ---------------------------------------------------------------------
  // The imperative side: the lazily built table and the pass loop

  /** A GL context, observed through the operations issued on it. */
  class Gl {
    var ops: seq<GlOp>

    constructor ()
      ensures ops == []
    {
      ops := [];
    }
  }

  /** The static state of `GLUtilities`: the jitter table, built on first use. */
  class GLUtilities {
    var jitterMap: Option<map<int, seq<Point2d>>>

    /** The table is either not built yet or is the full table. */
    predicate Valid()
      reads this`jitterMap
    {
      jitterMap.None? || jitterMap == Some(JitterTable)
    }

    constructor ()
      ensures jitterMap.None?
    {
      jitterMap := None;
    }

    method InitJitterMap()
      modifies this`jitterMap
      ensures jitterMap == Some(JitterTable)
    {
      jitterMap := Some(JitterTable);
    }

    /**
     * Builds the table if needed, then returns the samples for
     * `sampleAmount`, falling back to the nearest key (scanning the keys in
     * `order`) when it is not one.
     */
    method GetJitterSamples(sampleAmount: int, order: seq<int>) returns (samples: seq<Point2d>)
      requires Valid() && IsInt(sampleAmount) && IsKeyOrder(order)
      modifies this`jitterMap
      ensures jitterMap == Some(JitterTable)
      ensures samples == JitterSamples(sampleAmount, order)
    {
      if jitterMap.None? {
        InitJitterMap();
      }
      var table := jitterMap.value;
      JitterTableKeys();
      var amount := sampleAmount;
      if amount !in table {
        amount := NearestSampleAmount(amount, order);
      }
      ChosenIsKey(sampleAmount, order);
      samples := table[amount];
    }

    /** The fail-safe loop: the key that the scan in `order` finds closest to `sampleAmount`. */
    static method NearestSampleAmount(sampleAmount: int, order: seq<int>) returns (newSampleAmount: int)
      requires IsInt(sampleAmount) && IsKeyOrder(order)
      ensures newSampleAmount == Scan(order, sampleAmount).1
    {
      var difference := INT_MAX;
      newSampleAmount := 0;
      var i := 0;
      while i < |order|
        invariant 0 <= i <= |order|
        invariant (difference, newSampleAmount) == Scan(order[..i], sampleAmount)
      {
        var value := order[i];
        assert order[..i + 1][..i] == order[..i];
        if Abs32(Wrap32(value - sampleAmount)) < difference {
          difference := Abs32(Wrap32(value - sampleAmount));
          newSampleAmount := value;
        }
        i := i + 1;
      }
      assert order[..|order|] == order;
    }

    /**
     * Renders `scene` once when `aa` is at most 1; otherwise renders it once
     * per jitter sample into the accumulation buffer and returns the
     * average.
     */
    method RenderAntiAliased(gl: Gl, aa: int, order: seq<int>)
      requires Valid() && IsInt(aa) && IsKeyOrder(order)
      modifies gl, this`jitterMap
      ensures Valid()
      ensures aa <= 1 ==> jitterMap == old(jitterMap)
      ensures gl.ops == old(gl.ops) + AntiAliasedTrace(aa, JitterSamples(aa, order))
    {
      if aa <= 1 {
        gl.ops := gl.ops + [RenderScene];
        return;
      }
      gl.ops := gl.ops + [ReadViewport, ClearAccumBuffer];
      var samples := GetJitterSamples(aa, order);
      AccumulatePasses(gl, samples);
      gl.ops := gl.ops + [AccumReturn, Flush];
    }

    /** The loop of `renderAntiAliased`: one pass per sample, each weighted 1/n. */
    static method AccumulatePasses(gl: Gl, samples: seq<Point2d>)
      requires |samples| > 0
      modifies gl
      ensures gl.ops == old(gl.ops) + Passes(samples, |samples|)
    {
      var n := |samples|;
      var jitter := 0;
      while jitter < n
        invariant 0 <= jitter <= n
        invariant gl.ops == old(gl.ops) + Passes(samples[..jitter], n)
      {
        gl.ops := gl.ops + [ClearColorAndDepth];
        gl.ops := gl.ops + [Jitter(samples[jitter].x, samples[jitter].y)];
        gl.ops := gl.ops + [RenderScene];
        gl.ops := gl.ops + [Accumulate(1.0 / n as real)];
        assert samples[..jitter + 1][..jitter] == samples[..jitter];
        jitter := jitter + 1;
      }
      assert samples[..n] == samples;
    }
  }
}
