/**
 * The drop-shadow generator of `org.jdesktop.swingx.util.ShadowFactory`:
 * its clamping setters, the quality dispatch, and the fast separable box
 * blur, which runs a horizontal and then an in-place vertical sliding-window
 * pass over the destination raster.
 *
 * Pixels are 32-bit ARGB words held as their unsigned bit pattern, so
 * `a << 24` is `a * Shift24` and `p >>> 24` is `p / Shift24`.  The float
 * dividers `1f / size` and `opacity / size` are taken as exact.
 */
module SwingxUtil {
  import opened Wrappers

  const Shift24: int := 0x100_0000
  const KeyBlurQuality := "blur_quality"
  const BlurQualityFast := "fast"
  const BlurQualityHigh := "high"

  /** A `java.awt.Color`, by its ARGB word. */
  datatype Color = Color(argb: int)

  const Black := Color(0xFF00_0000)

  /** The property-change notifications the setters fire, with old and new values, one per call. */
  datatype Event =
    | SizeChanged(oldSize: int, newSize: int)
    | OpacityChanged(oldOpacity: real, newOpacity: real)
    | ColorChanged(oldColor: Color, newColor: Color)

  // ---------------------------------------------------------------------
  // Sliding windows

  /** Entry `j` of `v`, with everything outside `v` counting as 0. */
  function At(v: seq<int>, j: int): int {
    if 0 <= j < |v| then v[j] else 0
  }

  /** The sum of the entries of `v` at positions `lo` .. `hi - 1`, outside positions counting as 0. */
  function Window(v: seq<int>, lo: int, hi: int): int
    decreases hi - lo
  {
    if hi <= lo then 0 else Window(v, lo, hi - 1) + At(v, hi - 1)
  }

  lemma {:induction false} WindowPeel(v: seq<int>, lo: int, hi: int)
    requires lo < hi
    ensures Window(v, lo, hi) == At(v, lo) + Window(v, lo + 1, hi)
    decreases hi - lo
  {
    if lo + 1 < hi {
      WindowPeel(v, lo, hi - 1);
    }
  }

  /** Moving a window one step drops its oldest entry and adds the next one. */
  lemma WindowSlide(v: seq<int>, lo: int, hi: int)
    requires lo <= hi
    ensures Window(v, lo + 1, hi + 1) == Window(v, lo, hi) - At(v, lo) + At(v, hi)
  {
    WindowPeel(v, lo, hi + 1);
  }

  /** A window of entries in [0, bound] sums to at most `bound` per position. */
  lemma {:induction false} WindowBounds(v: seq<int>, lo: int, hi: int, bound: int)
    requires lo <= hi && bound >= 0
    requires forall j :: 0 <= j < |v| ==> 0 <= v[j] <= bound
    ensures 0 <= Window(v, lo, hi) <= bound * (hi - lo)
    decreases hi - lo
  {
    if lo < hi {
      WindowBounds(v, lo, hi - 1, bound);
      assert bound * (hi - lo) == bound * (hi - 1 - lo) + bound;
    }
  }

  /**
   * The position of entry `m` of a circular history of length `s` whose
   * oldest entry sits at `start`.
   */
  function Slot(start: int, m: int, s: int): int {
    if start + m < s then start + m else start + m - s
  }

  // ---------------------------------------------------------------------
  // What the fast blur computes

  /**
   * `(size - 1) >> 1`: the rows and columns of shadow above and left of the
   * image. The `size - 1` padding rows split into this and the rows below,
   * with at most one more below.
   */
  function Left(size: int): (left: int)
    requires size >= 1
    ensures 0 <= left <= size - 1 - left <= left + 1
  {
    (size - 1) / 2
  }

  /** Horizontal pass: destination column `k` of a row averages source columns `k - size` .. `k - 1`. */
  function HAlpha(row: seq<int>, k: int, size: int): int
    requires size >= 1
  {
    Window(row, k - size, k) / size
  }

  /** The alpha the horizontal pass leaves at column `x`, row `r` of the destination. */
  function Intermediate(src: seq<seq<int>>, size: int, x: int, r: int): int
    requires size >= 1
  {
    var left := Left(size);
    if left <= r < left + |src| then HAlpha(src[r - left], x, size) else 0
  }

  /** Column `x` of the destination after the horizontal pass, as alphas. */
  function IntermediateColumn(src: seq<seq<int>>, size: int, x: int, height: int): seq<int>
    requires size >= 1 && height >= 0
  {
    seq(height, r => Intermediate(src, size, x, r))
  }

  /** Vertical pass: a window sum scaled by `opacity / size` and truncated. */
  function VAlpha(sum: int, opacity: real, size: int): int
    requires size >= 1
  {
    (sum as real * (opacity / size as real)).Floor
  }

  /** The shadow pixel at column `x`, row `y`: the vertical average over rows `y - left` .. `y + right - 1`, in the shadow colour. */
  function ShadowPixel(src: seq<seq<int>>, size: int, opacity: real, rgb: int, height: int, x: int, y: int): int
    requires size >= 1 && height >= 0
  {
    var left := Left(size);
    var column := IntermediateColumn(src, size, x, height);
    VAlpha(Window(column, y - left, y - left + size), opacity, size) * Shift24 + rgb
  }

  predicate IsAlphaImage(src: seq<seq<int>>, width: int) {
    forall i :: 0 <= i < |src| ==> |src[i]| == width && forall j :: 0 <= j < width ==> 0 <= src[i][j] <= 255
  }

  /** Horizontal alphas stay in [0, 255]. */
  lemma HAlphaBounds(row: seq<int>, k: int, size: int)
    requires size >= 1
    requires forall j :: 0 <= j < |row| ==> 0 <= row[j] <= 255
    ensures 0 <= HAlpha(row, k, size) <= 255
  {
    WindowBounds(row, k - size, k, 255);
  }

  /** Vertical alphas stay in [0, 255 * opacity]. */
  lemma VAlphaBounds(sum: int, opacity: real, size: int)
    requires size >= 1 && 0.0 <= opacity <= 1.0
    requires 0 <= sum <= 255 * size
    ensures 0 <= VAlpha(sum, opacity, size)
    ensures VAlpha(sum, opacity, size) as real <= 255.0 * opacity
  {
    var d := opacity / size as real;
    assert 0.0 <= d;
    assert sum as real * d <= (255 * size) as real * d;
    assert (255 * size) as real * d == 255.0 * opacity;
  }

  // ---------------------------------------------------------------------
  // The fast blur, pass by pass

  lemma {:induction false} WindowOutside(v: seq<int>, lo: int, hi: int)
    requires hi <= 0 || |v| <= lo
    ensures Window(v, lo, hi) == 0
    decreases hi - lo
  {
    if lo < hi {
      WindowOutside(v, lo, hi - 1);
    }
  }

  /** Zeroes the first `count` entries of the history. */
  method ClearHistory(history: array<int>, count: int)
    requires 0 <= count <= history.Length
    modifies history
    ensures forall t :: 0 <= t < count ==> history[t] == 0
    ensures forall t :: count <= t < history.Length ==> history[t] == old(history[t])
  {
    var historyIdx := 0;
    while historyIdx < count
      invariant 0 <= historyIdx <= count
      invariant forall t :: 0 <= t < historyIdx ==> history[t] == 0
      invariant forall t :: count <= t < history.Length ==> history[t] == old(history[t])
    {
      history[historyIdx] := 0;
      historyIdx := historyIdx + 1;
    }
  }

  /** Advances a circular history position by one. */
  function NextSlot(historyIdx: int, size: int): (r: int)
    requires 0 <= historyIdx < size
    ensures 0 <= r < size
    ensures forall m :: 0 <= m < size - 1 ==> Slot(r, m, size) == Slot(historyIdx, m + 1, size)
    ensures Slot(r, size - 1, size) == historyIdx
  {
    if historyIdx + 1 >= size then historyIdx + 1 - size else historyIdx + 1
  }

  /**
   * Horizontal pass over one source row: writes destination row `y`, whose
   * column `k` gets `HAlpha(row, k, size) << 24`, using the circular history
   * and a running sum; no other row changes.
   */
  method BlurRow(row: seq<int>, size: int, dst: array2<int>, y: int, history: array<int>)
    requires size >= 1 && history.Length == size
    requires 0 <= y < dst.Length0 && dst.Length1 == |row| + size
    modifies dst, history
    ensures forall k :: 0 <= k < dst.Length1 ==> dst[y, k] == HAlpha(row, k, size) * Shift24
    ensures forall r, k :: 0 <= r < dst.Length0 && 0 <= k < dst.Length1 && r != y ==> dst[r, k] == old(dst[r, k])
  {
    ClearHistory(history, size);
    WindowOutside(row, -size, 0);
    var aSum, historyIdx := SlideAlongRow(row, size, dst, y, history);
    FlushRow(row, size, dst, y, history, aSum, historyIdx);
  }

  /** The first loop of a row: one output column per source column, each source alpha entering the window. */
  method SlideAlongRow(row: seq<int>, size: int, dst: array2<int>, y: int, history: array<int>)
    returns (aSum: int, historyIdx: int)
    requires size >= 1 && history.Length == size
    requires 0 <= y < dst.Length0 && dst.Length1 == |row| + size
    requires forall t :: 0 <= t < size ==> history[t] == 0
    modifies dst, history
    ensures 0 <= historyIdx < size
    ensures aSum == Window(row, |row| - size, |row|)
    ensures forall m :: 0 <= m < size ==> history[Slot(historyIdx, m, size)] == At(row, |row| - size + m)
    ensures forall k :: 0 <= k < |row| ==> dst[y, k] == HAlpha(row, k, size) * Shift24
    ensures forall r, k :: 0 <= r < dst.Length0 && 0 <= k < dst.Length1 && r != y ==> dst[r, k] == old(dst[r, k])
  {
    WindowOutside(row, -size, 0);
    aSum := 0;
    historyIdx := 0;
    var srcX := 0;
    while srcX < |row|
      invariant 0 <= srcX <= |row| && 0 <= historyIdx < size
      invariant aSum == Window(row, srcX - size, srcX)
      invariant forall m :: 0 <= m < size ==> history[Slot(historyIdx, m, size)] == At(row, srcX - size + m)
      invariant forall k :: 0 <= k < srcX ==> dst[y, k] == HAlpha(row, k, size) * Shift24
      invariant forall r, k :: 0 <= r < dst.Length0 && 0 <= k < dst.Length1 && r != y ==> dst[r, k] == old(dst[r, k])
    {
      var a := aSum / size;
      dst[y, srcX] := a * Shift24;
      assert Slot(historyIdx, 0, size) == historyIdx;
      aSum := aSum - history[historyIdx];
      a := row[srcX];
      ghost var before := history[..];
      history[historyIdx] := a;
      aSum := aSum + a;
      WindowSlide(row, srcX - size, srcX);
      var next := NextSlot(historyIdx, size);
      forall m | 0 <= m < size
        ensures history[Slot(next, m, size)] == At(row, srcX + 1 - size + m)
      {
        if m < size - 1 {
          assert Slot(next, m, size) == Slot(historyIdx, m + 1, size) != historyIdx;
          assert history[Slot(next, m, size)] == before[Slot(historyIdx, m + 1, size)];
        }
      }
      historyIdx := next;
      srcX := srcX + 1;
    }
  }

  /** The second loop of a row: `size` more output columns while the window runs off the row's end. */
  method FlushRow(row: seq<int>, size: int, dst: array2<int>, y: int, history: array<int>, aSum0: int, historyIdx0: int)
    requires size >= 1 && history.Length == size && 0 <= historyIdx0 < size
    requires 0 <= y < dst.Length0 && dst.Length1 == |row| + size
    requires aSum0 == Window(row, |row| - size, |row|)
    requires forall m :: 0 <= m < size ==> history[Slot(historyIdx0, m, size)] == At(row, |row| - size + m)
    requires forall k :: 0 <= k < |row| ==> dst[y, k] == HAlpha(row, k, size) * Shift24
    modifies dst
    ensures forall k :: 0 <= k < dst.Length1 ==> dst[y, k] == HAlpha(row, k, size) * Shift24
    ensures forall r, k :: 0 <= r < dst.Length0 && 0 <= k < dst.Length1 && r != y ==> dst[r, k] == old(dst[r, k])
  {
    var aSum, historyIdx := aSum0, historyIdx0;
    var i := 0;
    while i < size
      invariant 0 <= i <= size && 0 <= historyIdx < size
      invariant aSum == Window(row, |row| + i - size, |row| + i)
      invariant forall m :: 0 <= m < size - i ==> history[Slot(historyIdx, m, size)] == At(row, |row| + i - size + m)
      invariant forall k :: 0 <= k < |row| + i ==> dst[y, k] == HAlpha(row, k, size) * Shift24
      invariant forall r, k :: 0 <= r < dst.Length0 && 0 <= k < dst.Length1 && r != y ==> dst[r, k] == old(dst[r, k])
    {
      var a := aSum / size;
      dst[y, |row| + i] := a * Shift24;
      assert Slot(historyIdx, 0, size) == historyIdx;
      assert history[historyIdx] == At(row, |row| + i - size);
      aSum := aSum - history[historyIdx];
      WindowSlide(row, |row| + i - size, |row| + i);
      assert At(row, |row| + i) == 0;
      historyIdx := NextSlot(historyIdx, size);
      i := i + 1;
    }
  }

  /**
   * The horizontal pass: source row `srcY` is blurred into destination row
   * `left + srcY`; every other destination row keeps the 0 it was created with.
   */
  method HorizontalPass(src: seq<seq<int>>, srcWidth: int, size: int, dst: array2<int>, history: array<int>)
    requires size >= 1 && history.Length == size && srcWidth >= 0 && IsAlphaImage(src, srcWidth)
    requires dst.Length0 == |src| + size && dst.Length1 == srcWidth + size
    requires forall r, k :: 0 <= r < dst.Length0 && 0 <= k < dst.Length1 ==> dst[r, k] == 0
    modifies dst, history
    ensures forall r, k :: 0 <= r < dst.Length0 && 0 <= k < dst.Length1 ==>
              dst[r, k] == Intermediate(src, size, k, r) * Shift24
  {
    var left := Left(size);
    var srcY := 0;
    while srcY < |src|
      invariant 0 <= srcY <= |src|
      invariant forall r, k :: 0 <= r < dst.Length0 && 0 <= k < dst.Length1 ==>
                  dst[r, k] == if left <= r < left + srcY then Intermediate(src, size, k, r) * Shift24 else 0
    {
      BlurRow(src[srcY], size, dst, left + srcY, history);
      srcY := srcY + 1;
    }
  }

  /** The shadow pixel the vertical pass writes at row `r` of a column whose intermediate alphas are `col`. */
  function ColumnPixel(col: seq<int>, size: int, opacity: real, rgb: int, r: int): int
    requires size >= 1
  {
    VAlpha(Window(col, r - Left(size), r - Left(size) + size), opacity, size) * Shift24 + rgb
  }

  /**
   * The vertical pass over column `x`, in place: row `y` becomes the shadow
   * pixel for the window of intermediate rows `y - left` .. `y + right - 1`.
   * Every row is read before it is overwritten, because the pass reads row
   * `y + right` just after writing row `y`.  No other column changes.
   */
  method BlurColumn(dst: array2<int>, x: int, size: int, opacity: real, rgb: int, history: array<int>,
                    ghost col: seq<int>)
    requires size >= 1 && history.Length == size
    requires 0 <= x < dst.Length1 && |col| == dst.Length0 >= size
    requires forall r :: 0 <= r < |col| ==> col[r] >= 0 && dst[r, x] == col[r] * Shift24
    modifies dst, history
    ensures forall r :: 0 <= r < |col| ==> dst[r, x] == ColumnPixel(col, size, opacity, rgb, r)
    ensures forall r, k :: 0 <= r < dst.Length0 && 0 <= k < dst.Length1 && k != x ==> dst[r, k] == old(dst[r, k])
  {
    var left := Left(size);
    ClearHistory(history, left);
    var aSum := PrimeColumn(dst, x, size, history, col);
    var historyIdx;
    aSum, historyIdx := SlideDownColumn(dst, x, size, opacity, rgb, history, col, aSum);
    DrainColumn(dst, x, size, opacity, rgb, history, col, aSum, historyIdx);
  }

  /** Fills the history with `left` zeros and the first `right` rows of the column. */
  method PrimeColumn(dst: array2<int>, x: int, size: int, history: array<int>, ghost col: seq<int>) returns (aSum: int)
    requires size >= 1 && history.Length == size
    requires 0 <= x < dst.Length1 && |col| == dst.Length0 >= size
    requires forall r :: 0 <= r < |col| ==> col[r] >= 0 && dst[r, x] == col[r] * Shift24
    requires forall t :: 0 <= t < Left(size) ==> history[t] == 0
    modifies history
    ensures aSum == Window(col, -Left(size), size - Left(size))
    ensures forall m :: 0 <= m < size ==> history[m] == At(col, m - Left(size))
  {
    var left := Left(size);
    var right := size - left;
    WindowOutside(col, -left, 0);
    aSum := 0;
    var historyIdx := left;
    var y := 0;
    while y < right
      invariant 0 <= y <= right && historyIdx == left + y
      invariant aSum == Window(col, -left, y)
      invariant forall m :: 0 <= m < left + y ==> history[m] == At(col, m - left)
    {
      var a := dst[y, x] / Shift24;
      history[historyIdx] := a;
      historyIdx := historyIdx + 1;
      aSum := aSum + a;
      y := y + 1;
    }
  }

  /**
   * One step of the circular alpha history: the oldest sample, the one at
   * `historyIdx`, is handed back and overwritten with `a`, and the index moves on.
   */
  method PushSample(history: array<int>, historyIdx: int, size: int, a: int, ghost v: seq<int>, ghost lo: int)
    returns (dropped: int, next: int)
    requires size >= 1 && history.Length == size && 0 <= historyIdx < size
    requires forall m :: 0 <= m < size ==> history[Slot(historyIdx, m, size)] == At(v, lo + m)
    requires a == At(v, lo + size)
    modifies history
    ensures dropped == At(v, lo) && next == NextSlot(historyIdx, size)
    ensures forall m :: 0 <= m < size ==> history[Slot(next, m, size)] == At(v, lo + 1 + m)
  {
    assert Slot(historyIdx, 0, size) == historyIdx;
    dropped := history[historyIdx];
    ghost var before := history[..];
    history[historyIdx] := a;
    next := NextSlot(historyIdx, size);
    forall m | 0 <= m < size
      ensures history[Slot(next, m, size)] == At(v, lo + 1 + m)
    {
      if m < size - 1 {
        assert Slot(next, m, size) == Slot(historyIdx, m + 1, size) != historyIdx;
        assert history[Slot(next, m, size)] == before[Slot(historyIdx, m + 1, size)];
      }
    }
  }

  /**
   * One row of the first loop down a column: row `y` gets its shadow pixel,
   * then the intermediate alpha of row `y + right` enters the window.
   */
  method SlideDownStep(dst: array2<int>, x: int, y: int, size: int, opacity: real, rgb: int, history: array<int>,
                       ghost col: seq<int>, ghost lo: int, aSum0: int, historyIdx0: int) returns (aSum: int, historyIdx: int)
    requires size >= 1 && history.Length == size && 0 <= historyIdx0 < size
    requires lo == y - Left(size)
    requires 0 <= x < dst.Length1 && |col| == dst.Length0 && 0 <= y && lo + size < |col|
    requires dst[lo + size, x] == col[lo + size] * Shift24
    requires aSum0 == Window(col, lo, lo + size)
    requires forall m :: 0 <= m < size ==> history[Slot(historyIdx0, m, size)] == At(col, lo + m)
    modifies dst, history
    ensures 0 <= historyIdx < size
    ensures aSum == Window(col, lo + 1, lo + 1 + size)
    ensures forall m :: 0 <= m < size ==> history[Slot(historyIdx, m, size)] == At(col, lo + 1 + m)
    ensures dst[y, x] == ColumnPixel(col, size, opacity, rgb, y)
    ensures forall r, k :: 0 <= r < dst.Length0 && 0 <= k < dst.Length1 && (r != y || k != x) ==> dst[r, k] == old(dst[r, k])
  {
    var left := Left(size);
    var right := size - left;
    var a := VAlpha(aSum0, opacity, size);
    dst[y, x] := a * Shift24 + rgb;
    a := dst[y + right, x] / Shift24;
    var dropped;
    dropped, historyIdx := PushSample(history, historyIdx0, size, a, col, lo);
    WindowSlide(col, lo, lo + size);
    aSum := aSum0 - dropped + a;
  }

  /** The first loop down a column: writes rows 0 .. yStop - 1, reading row `y + right` into the window after writing row `y`. */
  method SlideDownColumn(dst: array2<int>, x: int, size: int, opacity: real, rgb: int, history: array<int>,
                         ghost col: seq<int>, aSum0: int) returns (aSum: int, historyIdx: int)
    requires size >= 1 && history.Length == size
    requires 0 <= x < dst.Length1 && |col| == dst.Length0 >= size
    requires forall r :: 0 <= r < |col| ==> col[r] >= 0 && dst[r, x] == col[r] * Shift24
    requires aSum0 == Window(col, -Left(size), size - Left(size))
    requires forall m :: 0 <= m < size ==> history[m] == At(col, m - Left(size))
    modifies dst, history
    ensures 0 <= historyIdx < size
    ensures aSum == Window(col, |col| - size, |col|)
    ensures forall m :: 0 <= m < size ==> history[Slot(historyIdx, m, size)] == At(col, |col| - size + m)
    ensures forall r :: 0 <= r < |col| - size + Left(size) ==> dst[r, x] == ColumnPixel(col, size, opacity, rgb, r)
    ensures forall r, k :: 0 <= r < dst.Length0 && 0 <= k < dst.Length1 && k != x ==> dst[r, k] == old(dst[r, k])
  {
    var left := Left(size);
    var right := size - left;
    var yStop := dst.Length0 - right;
    aSum := aSum0;
    historyIdx := 0;
    var y := 0;
    ghost var lo := -left;
    while y < yStop
      invariant 0 <= y <= yStop && 0 <= historyIdx < size && lo == y - left
      invariant aSum == Window(col, lo, lo + size)
      invariant forall m :: 0 <= m < size ==> history[Slot(historyIdx, m, size)] == At(col, lo + m)
      invariant forall r :: 0 <= r < y ==> dst[r, x] == ColumnPixel(col, size, opacity, rgb, r)
      invariant forall r :: y <= r < |col| ==> dst[r, x] == col[r] * Shift24
      invariant forall r, k :: 0 <= r < dst.Length0 && 0 <= k < dst.Length1 && k != x ==> dst[r, k] == old(dst[r, k])
    {
      aSum, historyIdx := SlideDownStep(dst, x, y, size, opacity, rgb, history, col, lo, aSum, historyIdx);
      y, lo := y + 1, lo + 1;
    }
  }

  /** The second loop down a column: writes the last `right` rows while the window runs off the bottom. */
  method DrainColumn(dst: array2<int>, x: int, size: int, opacity: real, rgb: int, history: array<int>,
                     ghost col: seq<int>, aSum0: int, historyIdx0: int)
    requires size >= 1 && history.Length == size && 0 <= historyIdx0 < size
    requires 0 <= x < dst.Length1 && |col| == dst.Length0 >= size
    requires aSum0 == Window(col, |col| - size, |col|)
    requires forall m :: 0 <= m < size ==> history[Slot(historyIdx0, m, size)] == At(col, |col| - size + m)
    requires forall r :: 0 <= r < |col| - size + Left(size) ==> dst[r, x] == ColumnPixel(col, size, opacity, rgb, r)
    modifies dst
    ensures forall r :: 0 <= r < |col| ==> dst[r, x] == ColumnPixel(col, size, opacity, rgb, r)
    ensures forall r, k :: 0 <= r < dst.Length0 && 0 <= k < dst.Length1 && k != x ==> dst[r, k] == old(dst[r, k])
  {
    var left := Left(size);
    var right := size - left;
    var dstHeight := dst.Length0;
    var aSum, historyIdx := aSum0, historyIdx0;
    var y := dstHeight - right;
    while y < dstHeight
      invariant dstHeight - right <= y <= dstHeight && 0 <= historyIdx < size
      invariant aSum == Window(col, y - left, y + right)
      invariant forall m :: 0 <= m < size && y - left + m < |col| ==>
                  history[Slot(historyIdx, m, size)] == At(col, y - left + m)
      invariant forall r :: 0 <= r < y ==> dst[r, x] == ColumnPixel(col, size, opacity, rgb, r)
      invariant forall r, k :: 0 <= r < dst.Length0 && 0 <= k < dst.Length1 && k != x ==> dst[r, k] == old(dst[r, k])
    {
      var a := VAlpha(aSum, opacity, size);
      dst[y, x] := a * Shift24 + rgb;
      assert Slot(historyIdx, 0, size) == historyIdx;
      aSum := aSum - history[historyIdx];
      WindowSlide(col, y - left, y + right);
      assert At(col, y + right) == 0;
      historyIdx := NextSlot(historyIdx, size);
      y := y + 1;
    }
  }

  /** Every intermediate alpha lies in [0, 255]. */
  lemma IntermediateBounds(src: seq<seq<int>>, srcWidth: int, size: int, x: int, r: int)
    requires size >= 1 && IsAlphaImage(src, srcWidth)
    ensures 0 <= Intermediate(src, size, x, r) <= 255
  {
    var left := Left(size);
    if left <= r < left + |src| {
      HAlphaBounds(src[r - left], x, size);
    }
  }

  /**
   * The vertical pass, column by column: afterwards every pixel is the
   * shadow pixel of its position.
   */
  method VerticalPass(src: seq<seq<int>>, srcWidth: int, size: int, opacity: real, rgb: int,
                      dst: array2<int>, history: array<int>)
    requires size >= 1 && history.Length == size && IsAlphaImage(src, srcWidth)
    requires dst.Length0 == |src| + size
    requires forall r, k :: 0 <= r < dst.Length0 && 0 <= k < dst.Length1 ==>
               dst[r, k] == Intermediate(src, size, k, r) * Shift24
    modifies dst, history
    ensures forall r, k :: 0 <= r < dst.Length0 && 0 <= k < dst.Length1 ==>
              dst[r, k] == ShadowPixel(src, size, opacity, rgb, dst.Length0, k, r)
  {
    var x := 0;
    while x < dst.Length1
      invariant 0 <= x <= dst.Length1
      invariant forall r, k :: 0 <= r < dst.Length0 && 0 <= k < dst.Length1 ==>
                  dst[r, k] == if k < x then ShadowPixel(src, size, opacity, rgb, dst.Length0, k, r)
                               else Intermediate(src, size, k, r) * Shift24
    {
      ghost var col := IntermediateColumn(src, size, x, dst.Length0);
      forall r | 0 <= r < |col|
        ensures col[r] >= 0
      {
        IntermediateBounds(src, srcWidth, size, x, r);
      }
      BlurColumn(dst, x, size, opacity, rgb, history, col);
      x := x + 1;
    }
  }

  /** The alpha byte of a shadow pixel: at most `255 * opacity`, never negative. */
  lemma ShadowAlphaBounds(src: seq<seq<int>>, srcWidth: int, size: int, opacity: real, height: int, x: int, y: int)
    requires size >= 1 && height >= 0 && IsAlphaImage(src, srcWidth) && 0.0 <= opacity <= 1.0
    ensures var column := IntermediateColumn(src, size, x, height);
            var a := VAlpha(Window(column, y - Left(size), y - Left(size) + size), opacity, size);
            0 <= a && a as real <= 255.0 * opacity
  {
    var column := IntermediateColumn(src, size, x, height);
    forall j | 0 <= j < |column|
      ensures 0 <= column[j] <= 255
    {
      IntermediateBounds(src, srcWidth, size, x, j);
    }
    WindowBounds(column, y - Left(size), y - Left(size) + size, 255);
    VAlphaBounds(Window(column, y - Left(size), y - Left(size) + size), opacity, size);
  }

  /**
   * A shadow pixel is a well-formed ARGB word: its top byte is the blurred
   * alpha, at most `255 * opacity`, and its low 24 bits are the shadow colour.
   */
  lemma ShadowPixelIsArgb(src: seq<seq<int>>, srcWidth: int, size: int, opacity: real, rgb: int, height: int, x: int, y: int)
    requires size >= 1 && height >= 0 && IsAlphaImage(src, srcWidth) && 0.0 <= opacity <= 1.0
    requires 0 <= rgb < Shift24
    ensures var p := ShadowPixel(src, size, opacity, rgb, height, x, y);
            0 <= p < 256 * Shift24 && p % Shift24 == rgb && (p / Shift24) as real <= 255.0 * opacity
  {
    ShadowAlphaBounds(src, srcWidth, size, opacity, height, x, y);
    var column := IntermediateColumn(src, size, x, height);
    var a := VAlpha(Window(column, y - Left(size), y - Left(size) + size), opacity, size);
    assert a <= 255 by {
      assert a as real <= 255.0;
    }
    var p := a * Shift24 + rgb;
    assert p / Shift24 == a && p % Shift24 == rgb;
  }

  /** Whether the fast blur is used: unless the quality hint is exactly the high-quality value. */
  predicate UsesFastBlur(hints: map<string, string>) {
    !(KeyBlurQuality in hints && hints[KeyBlurQuality] == BlurQualityHigh)
  }

  /** The outcome of `createShadow`: the fast path's raster, or the size of the high-quality path's image. */
  datatype Shadow =
    | Raster(pixels: array2<int>)
    | Convolved(width: int, height: int)

  /** `max(s, 0)`: the size `setSize` stores. */
  function ClampSize(s: int): (r: int)
    ensures r >= 0 && (r == s || r == 0)
    ensures s >= 0 <==> r == s
  {
    if s < 0 then 0 else s
  }

  /** The opacity `setOpacity` stores: the request clamped into [0, 1]. */
  function ClampOpacity(o: real): (r: real)
    ensures 0.0 <= r <= 1.0
    ensures 0.0 <= o <= 1.0 <==> r == o
    ensures o < 0.0 ==> r == 0.0
    ensures o > 1.0 ==> r == 1.0
  {
    if o < 0.0 then 0.0 else if o > 1.0 then 1.0 else o
  }

  /**
   * A shadow factory: a blur size, an opacity and a colour, rendering hints,
   * and the property-change events its setters have fired.
   */
  class ShadowFactory {
    var size: int
    var opacity: real
    var color: Color
    var hints: map<string, string>
    var events: seq<Event>

    predicate Valid()
      reads this`size, this`opacity
    {
      size >= 0 && 0.0 <= opacity <= 1.0
    }

    /** The default factory: the main constructor with size 5, opacity 0.5 and black, which re-stores the defaults. */
    constructor Default()
      ensures Valid()
      ensures size == 5 && opacity == 0.5 && color == Black
      ensures hints == map[KeyBlurQuality := BlurQualityFast]
      ensures events == [SizeChanged(5, 5), OpacityChanged(0.5, 0.5), ColorChanged(Black, Black)]
    {
      size, opacity, color := 5, 0.5, Black;
      hints := map[KeyBlurQuality := BlurQualityFast];
      events := [];
      new;
      SetSize(5);
      SetOpacity(0.5);
      SetColor(Some(Black));
    }

    /**
     * Starts from the field defaults (5, 0.5, black) with the fast quality
     * hint, then applies the three setters in order, which fire their events.
     */
    constructor (size0: int, opacity0: real, color0: Option<Color>)
      ensures Valid()
      ensures size == ClampSize(size0) && opacity == ClampOpacity(opacity0)
      ensures color == if color0.Some? then color0.value else Black
      ensures hints == map[KeyBlurQuality := BlurQualityFast]
      ensures events == [SizeChanged(5, ClampSize(size0)), OpacityChanged(0.5, ClampOpacity(opacity0))] +
                        if color0.Some? then [ColorChanged(Black, color0.value)] else []
    {
      size, opacity, color := 5, 0.5, Black;
      hints := map[KeyBlurQuality := BlurQualityFast];
      events := [];
      new;
      SetSize(size0);
      SetOpacity(opacity0);
      SetColor(color0);
    }

    method SetRenderingHint(key: string, value: string)
      modifies this`hints
      ensures hints == old(hints)[key := value]
    {
      hints := hints[key := value];
    }

    /** A null colour is ignored; otherwise the colour is stored and a change fired. */
    method SetColor(c: Option<Color>)
      modifies this`color, this`events
      ensures c.None? ==> color == old(color) && events == old(events)
      ensures c.Some? ==> color == c.value && events == old(events) + [ColorChanged(old(color), c.value)]
    {
      if c.None? {
        return;
      }
      var oldColor := color;
      color := c.value;
      events := events + [ColorChanged(oldColor, color)];
    }

    method SetOpacity(o: real)
      modifies this`opacity, this`events
      ensures opacity == ClampOpacity(o)
      ensures events == old(events) + [OpacityChanged(old(opacity), opacity)]
    {
      var oldOpacity := opacity;
      opacity := if o < 0.0 then 0.0 else if o > 1.0 then 1.0 else o;
      events := events + [OpacityChanged(oldOpacity, opacity)];
    }

    method SetSize(s: int)
      modifies this`size, this`events
      ensures size == ClampSize(s)
      ensures events == old(events) + [SizeChanged(old(size), size)]
    {
      var oldSize := size;
      size := if s < 0 then 0 else s;
      events := events + [SizeChanged(oldSize, size)];
    }

    /**
     * The fast shadow of a `srcWidth`-wide alpha image: a raster `size`
     * wider and taller whose every pixel is the shadow pixel of its
     * position.  A size of 0 makes `left` equal to -1, so the horizontal
     * pass starts one row above the raster and its first write is out of
     * bounds (the source image is never empty).
     */
    method CreateShadowFast(src: seq<seq<int>>, srcWidth: int) returns (r: Result<array2<int>, string>)
      requires srcWidth >= 0 && IsAlphaImage(src, srcWidth)
      requires Valid()
      ensures size == 0 ==> r.Failure?
      ensures size >= 1 ==> r.Success? && fresh(r.value)
      ensures r.Success? ==>
                r.value.Length0 == |src| + size && r.value.Length1 == srcWidth + size &&
                forall y, x :: 0 <= y < r.value.Length0 && 0 <= x < r.value.Length1 ==>
                  r.value[y, x] == ShadowPixel(src, size, opacity, color.argb % Shift24, r.value.Length0, x, y)
    {
      if size == 0 {
        return Failure("array index out of bounds: the first row is written above the raster");
      }
      var dst := new int[|src| + size, srcWidth + size]((_, _) => 0);
      var history := new int[size];
      var rgb := color.argb % Shift24;
      HorizontalPass(src, srcWidth, size, dst, history);
      VerticalPass(src, srcWidth, size, opacity, rgb, dst, history);
      r := Success(dst);
    }

    /**
     * Dispatches on the quality hint.  The high-quality path pads the image
     * by `size` on every side and convolves it; only its dimensions are modelled.
     */
    method CreateShadow(src: seq<seq<int>>, srcWidth: int) returns (r: Result<Shadow, string>)
      requires srcWidth >= 0 && IsAlphaImage(src, srcWidth)
      requires Valid()
      ensures UsesFastBlur(hints) && size == 0 ==> r.Failure?
      ensures UsesFastBlur(hints) && size >= 1 ==>
                r.Success? && r.value.Raster? && fresh(r.value.pixels) &&
                r.value.pixels.Length0 == |src| + size && r.value.pixels.Length1 == srcWidth + size &&
                forall y, x :: 0 <= y < |src| + size && 0 <= x < srcWidth + size ==>
                  r.value.pixels[y, x] == ShadowPixel(src, size, opacity, color.argb % Shift24, |src| + size, x, y)
      ensures !UsesFastBlur(hints) ==> r == Success(Convolved(srcWidth + 2 * size, |src| + 2 * size))
    {
      if UsesFastBlur(hints) {
        var fast := CreateShadowFast(src, srcWidth);
        if fast.Failure? {
          return Failure(fast.error);
        }
        return Success(Raster(fast.value));
      }
      return Success(Convolved(srcWidth + 2 * size, |src| + 2 * size));
    }
  }
}
