/// Row-major index arithmetic and the HWC/CHW permutation of image data.
/// An image of height H, width W and C channels stores pixel (h, w) channel
/// c at `h*W*C + w*C + c` in HWC order and at `c*H*W + h*W + w` in CHW order.
module Layout {

  /// Position `b` of row `a` in rows of `n` entries.
  function Flat(a: nat, b: nat, n: nat): nat
  {
    a * n + b
  }

  /// The next row starts `n` past the previous one.
  lemma FlatStep(a: nat, b: nat, n: nat)
    ensures Flat(a + 1, b, n) == n + Flat(a, b, n)
  {
  }

  lemma MulAtLeast(k: int, n: nat)
    requires k >= 1
    ensures k * n >= n
  {
    if k > 1 {
      MulAtLeast(k - 1, n);
      assert k * n == (k - 1) * n + n;
    }
  }

  /// A flat position determines its row and column.
  lemma FlatDivMod(a: nat, b: nat, n: nat)
    requires b < n
    ensures Flat(a, b, n) / n == a && Flat(a, b, n) % n == b
  {
    var x := a * n + b;
    var q := x / n;
    var r := x % n;
    assert x == q * n + r;
    if q < a {
      MulAtLeast(a - q, n);
    } else if q > a {
      MulAtLeast(q - a, n);
    }
  }

  /// Positions inside an `m` by `n` block stay below `m * n`.
  lemma FlatBound(a: nat, b: nat, m: nat, n: nat)
    requires a < m && b < n
    ensures Flat(a, b, n) < m * n
  {
    MulAtLeast(m - a, n);
    assert (m - a) * n == m * n - a * n;
  }

  /// Row `a < m` of an `m` by `n` block ends within the block.
  lemma RowFits(a: nat, m: nat, n: nat)
    requires a < m
    ensures Flat(a, 0, n) + n <= m * n
  {
    MulAtLeast(m - a, n);
  }

  /// Every position below `m * n` is some row `< m` and column `< n`.
  lemma FlatSplit(x: nat, m: nat, n: nat)
    requires x < m * n
    ensures n > 0 && x / n < m && x % n < n && x == Flat(x / n, x % n, n)
  {
    var q := x / n;
    assert x == q * n + x % n;
    if q >= m {
      MulAtLeast(q - m + 1, n);
    }
  }

  function HwcIndex(h: nat, w: nat, c: nat, W: nat, C: nat): nat
  {
    Flat(Flat(h, w, W), c, C)
  }

  function ChwIndex(c: nat, h: nat, w: nat, H: nat, W: nat): nat
  {
    Flat(Flat(c, h, H), w, W)
  }

  /// The source's spelling of the two indices is the same number.
  lemma IndexSpelling(h: nat, w: nat, c: nat, H: nat, W: nat, C: nat)
    ensures HwcIndex(h, w, c, W, C) == h * W * C + w * C + c
    ensures ChwIndex(c, h, w, H, W) == c * H * W + h * W + w
  {
    assert (h * W + w) * C == h * W * C + w * C;
    assert (c * H + h) * W == c * H * W + h * W;
  }

  lemma HwcInRange(h: nat, w: nat, c: nat, H: nat, W: nat, C: nat)
    requires h < H && w < W && c < C
    ensures HwcIndex(h, w, c, W, C) < H * W * C
  {
    FlatBound(h, w, H, W);
    FlatBound(Flat(h, w, W), c, H * W, C);
  }

  lemma ChwInRange(c: nat, h: nat, w: nat, H: nat, W: nat, C: nat)
    requires h < H && w < W && c < C
    ensures ChwIndex(c, h, w, H, W) < H * W * C
  {
    FlatBound(c, h, C, H);
    FlatBound(Flat(c, h, H), w, C * H, W);
    assert C * H * W == H * W * C;
  }

  lemma HwcInjective(h: nat, w: nat, c: nat, h': nat, w': nat, c': nat, W: nat, C: nat)
    requires w < W && c < C && w' < W && c' < C
    requires HwcIndex(h, w, c, W, C) == HwcIndex(h', w', c', W, C)
    ensures h == h' && w == w' && c == c'
  {
    FlatDivMod(Flat(h, w, W), c, C);
    FlatDivMod(Flat(h', w', W), c', C);
    FlatDivMod(h, w, W);
    FlatDivMod(h', w', W);
  }

  lemma ChwInjective(c: nat, h: nat, w: nat, c': nat, h': nat, w': nat, H: nat, W: nat)
    requires h < H && w < W && h' < H && w' < W
    requires ChwIndex(c, h, w, H, W) == ChwIndex(c', h', w', H, W)
    ensures h == h' && w == w' && c == c'
  {
    FlatDivMod(Flat(c, h, H), w, W);
    FlatDivMod(Flat(c', h', H), w', W);
    FlatDivMod(c, h, H);
    FlatDivMod(c', h', H);
  }

  /// The pixel and channel an HWC position holds.
  function HwcH(k: nat, W: nat, C: nat): nat requires W > 0 && C > 0 { (k / C) / W }
  function HwcW(k: nat, W: nat, C: nat): nat requires W > 0 && C > 0 { (k / C) % W }
  function HwcC(k: nat, C: nat): nat requires C > 0 { k % C }

  /// The pixel and channel a CHW position holds.
  function ChwC(k: nat, H: nat, W: nat): nat requires H > 0 && W > 0 { (k / W) / H }
  function ChwH(k: nat, H: nat, W: nat): nat requires H > 0 && W > 0 { (k / W) % H }
  function ChwW(k: nat, W: nat): nat requires W > 0 { k % W }

  /// Every HWC position is the index of exactly the pixel it names.
  lemma HwcSplit(k: nat, H: nat, W: nat, C: nat)
    requires k < H * W * C
    ensures W > 0 && C > 0
    ensures HwcH(k, W, C) < H && HwcW(k, W, C) < W && HwcC(k, C) < C
    ensures k == HwcIndex(HwcH(k, W, C), HwcW(k, W, C), HwcC(k, C), W, C)
  {
    FlatSplit(k, H * W, C);
    FlatSplit(k / C, H, W);
  }

  lemma ChwSplit(k: nat, H: nat, W: nat, C: nat)
    requires k < H * W * C
    ensures H > 0 && W > 0
    ensures ChwC(k, H, W) < C && ChwH(k, H, W) < H && ChwW(k, W) < W
    ensures k == ChwIndex(ChwC(k, H, W), ChwH(k, H, W), ChwW(k, W), H, W)
  {
    assert H * W * C == C * H * W;
    FlatSplit(k, C * H, W);
    FlatSplit(k / W, C, H);
  }

  /// The CHW image of HWC data: slot k holds the HWC entry of the pixel
  /// and channel that k names.
  function HwcToChwSeq<T>(src: seq<T>, H: nat, W: nat, C: nat): (dst: seq<T>)
    requires |src| == H * W * C
    ensures |dst| == |src|
  {
    seq(|src|, k requires 0 <= k < |src| =>
      ChwSplit(k, H, W, C);
      HwcInRange(ChwH(k, H, W), ChwW(k, W), ChwC(k, H, W), H, W, C);
      src[HwcIndex(ChwH(k, H, W), ChwW(k, W), ChwC(k, H, W), W, C)])
  }

  /// The HWC image of CHW data.
  function ChwToHwcSeq<T>(src: seq<T>, H: nat, W: nat, C: nat): (dst: seq<T>)
    requires |src| == H * W * C
    ensures |dst| == |src|
  {
    seq(|src|, k requires 0 <= k < |src| =>
      HwcSplit(k, H, W, C);
      ChwInRange(HwcC(k, C), HwcH(k, W, C), HwcW(k, W, C), H, W, C);
      src[ChwIndex(HwcC(k, C), HwcH(k, W, C), HwcW(k, W, C), H, W)])
  }

  /// Each pixel's channel value moves from its HWC slot to its CHW slot.
  lemma HwcToChwAt<T>(src: seq<T>, H: nat, W: nat, C: nat, h: nat, w: nat, c: nat)
    requires |src| == H * W * C && h < H && w < W && c < C
    ensures ChwIndex(c, h, w, H, W) < |src| && HwcIndex(h, w, c, W, C) < |src|
    ensures HwcToChwSeq(src, H, W, C)[ChwIndex(c, h, w, H, W)] == src[HwcIndex(h, w, c, W, C)]
  {
    ChwInRange(c, h, w, H, W, C);
    HwcInRange(h, w, c, H, W, C);
    var k := ChwIndex(c, h, w, H, W);
    ChwSplit(k, H, W, C);
    ChwInjective(c, h, w, ChwC(k, H, W), ChwH(k, H, W), ChwW(k, W), H, W);
  }

  lemma ChwToHwcAt<T>(src: seq<T>, H: nat, W: nat, C: nat, h: nat, w: nat, c: nat)
    requires |src| == H * W * C && h < H && w < W && c < C
    ensures ChwIndex(c, h, w, H, W) < |src| && HwcIndex(h, w, c, W, C) < |src|
    ensures ChwToHwcSeq(src, H, W, C)[HwcIndex(h, w, c, W, C)] == src[ChwIndex(c, h, w, H, W)]
  {
    ChwInRange(c, h, w, H, W, C);
    HwcInRange(h, w, c, H, W, C);
    var k := HwcIndex(h, w, c, W, C);
    HwcSplit(k, H, W, C);
    HwcInjective(h, w, c, HwcH(k, W, C), HwcW(k, W, C), HwcC(k, C), W, C);
  }

  /// Converting to CHW and back restores the HWC data.
  lemma HwcChwRoundTrip<T>(src: seq<T>, H: nat, W: nat, C: nat)
    requires |src| == H * W * C
    ensures ChwToHwcSeq(HwcToChwSeq(src, H, W, C), H, W, C) == src
  {
    var mid := HwcToChwSeq(src, H, W, C);
    var back := ChwToHwcSeq(mid, H, W, C);
    forall k | 0 <= k < |src|
      ensures back[k] == src[k]
    {
      HwcSplit(k, H, W, C);
      var h, w, c := HwcH(k, W, C), HwcW(k, W, C), HwcC(k, C);
      ChwToHwcAt(mid, H, W, C, h, w, c);
      HwcToChwAt(src, H, W, C, h, w, c);
    }
  }

  /// Converting to HWC and back restores the CHW data.
  lemma ChwHwcRoundTrip<T>(src: seq<T>, H: nat, W: nat, C: nat)
    requires |src| == H * W * C
    ensures HwcToChwSeq(ChwToHwcSeq(src, H, W, C), H, W, C) == src
  {
    var mid := ChwToHwcSeq(src, H, W, C);
    var back := HwcToChwSeq(mid, H, W, C);
    forall k | 0 <= k < |src|
      ensures back[k] == src[k]
    {
      ChwSplit(k, H, W, C);
      var c, h, w := ChwC(k, H, W), ChwH(k, H, W), ChwW(k, W);
      HwcToChwAt(mid, H, W, C, h, w, c);
      ChwToHwcAt(src, H, W, C, h, w, c);
    }
  }

  /// The triple loop of `hwc_to_chw` (and of the CHW branch of image
  /// preprocessing): a zero-filled buffer of the same length receives
  /// every HWC entry at its CHW slot.
  method FillChw<T>(src: seq<T>, H: nat, W: nat, C: nat, zero: T) returns (dst: seq<T>)
    requires |src| == H * W * C
    ensures dst == HwcToChwSeq(src, H, W, C)
  {
    var a := new T[|src|](_ => zero);
    for h := 0 to H
      invariant forall h', w', c' :: 0 <= h' < h && 0 <= w' < W && 0 <= c' < C
                  ==> ChwIndex(c', h', w', H, W) < a.Length && HwcIndex(h', w', c', W, C) < |src|
                      && a[ChwIndex(c', h', w', H, W)] == src[HwcIndex(h', w', c', W, C)]
    {
      for w := 0 to W
        invariant forall h', w', c' :: 0 <= h' < h && 0 <= w' < W && 0 <= c' < C
                    ==> ChwIndex(c', h', w', H, W) < a.Length && HwcIndex(h', w', c', W, C) < |src|
                        && a[ChwIndex(c', h', w', H, W)] == src[HwcIndex(h', w', c', W, C)]
        invariant forall w', c' :: 0 <= w' < w && 0 <= c' < C
                    ==> ChwIndex(c', h, w', H, W) < a.Length && HwcIndex(h, w', c', W, C) < |src|
                        && a[ChwIndex(c', h, w', H, W)] == src[HwcIndex(h, w', c', W, C)]
      {
        for c := 0 to C
          invariant forall h', w', c' :: 0 <= h' < h && 0 <= w' < W && 0 <= c' < C
                      ==> ChwIndex(c', h', w', H, W) < a.Length && HwcIndex(h', w', c', W, C) < |src|
                          && a[ChwIndex(c', h', w', H, W)] == src[HwcIndex(h', w', c', W, C)]
          invariant forall w', c' :: 0 <= w' < w && 0 <= c' < C
                      ==> ChwIndex(c', h, w', H, W) < a.Length && HwcIndex(h, w', c', W, C) < |src|
                          && a[ChwIndex(c', h, w', H, W)] == src[HwcIndex(h, w', c', W, C)]
          invariant forall c' :: 0 <= c' < c
                      ==> ChwIndex(c', h, w, H, W) < a.Length && HwcIndex(h, w, c', W, C) < |src|
                          && a[ChwIndex(c', h, w, H, W)] == src[HwcIndex(h, w, c', W, C)]
        {
          ChwInRange(c, h, w, H, W, C);
          HwcInRange(h, w, c, H, W, C);
          var chwIdx := ChwIndex(c, h, w, H, W);
          forall h', w', c' | 0 <= h' < H && 0 <= w' < W && chwIdx == ChwIndex(c', h', w', H, W)
            ensures h' == h && w' == w && c' == c
          {
            ChwInjective(c, h, w, c', h', w', H, W);
          }
          a[chwIdx] := src[HwcIndex(h, w, c, W, C)];
        }
      }
    }
    dst := a[..];
    forall k | 0 <= k < |src|
      ensures dst[k] == HwcToChwSeq(src, H, W, C)[k]
    {
      ChwSplit(k, H, W, C);
      HwcToChwAt(src, H, W, C, ChwH(k, H, W), ChwW(k, W), ChwC(k, H, W));
    }
  }

  /// The triple loop of `chw_to_hwc`.
  method FillHwc<T>(src: seq<T>, H: nat, W: nat, C: nat, zero: T) returns (dst: seq<T>)
    requires |src| == H * W * C
    ensures dst == ChwToHwcSeq(src, H, W, C)
  {
    var a := new T[|src|](_ => zero);
    for c := 0 to C
      invariant forall c', h', w' :: 0 <= c' < c && 0 <= h' < H && 0 <= w' < W
                  ==> HwcIndex(h', w', c', W, C) < a.Length && ChwIndex(c', h', w', H, W) < |src|
                      && a[HwcIndex(h', w', c', W, C)] == src[ChwIndex(c', h', w', H, W)]
    {
      for h := 0 to H
        invariant forall c', h', w' :: 0 <= c' < c && 0 <= h' < H && 0 <= w' < W
                    ==> HwcIndex(h', w', c', W, C) < a.Length && ChwIndex(c', h', w', H, W) < |src|
                        && a[HwcIndex(h', w', c', W, C)] == src[ChwIndex(c', h', w', H, W)]
        invariant forall h', w' :: 0 <= h' < h && 0 <= w' < W
                    ==> HwcIndex(h', w', c, W, C) < a.Length && ChwIndex(c, h', w', H, W) < |src|
                        && a[HwcIndex(h', w', c, W, C)] == src[ChwIndex(c, h', w', H, W)]
      {
        for w := 0 to W
          invariant forall c', h', w' :: 0 <= c' < c && 0 <= h' < H && 0 <= w' < W
                      ==> HwcIndex(h', w', c', W, C) < a.Length && ChwIndex(c', h', w', H, W) < |src|
                          && a[HwcIndex(h', w', c', W, C)] == src[ChwIndex(c', h', w', H, W)]
          invariant forall h', w' :: 0 <= h' < h && 0 <= w' < W
                      ==> HwcIndex(h', w', c, W, C) < a.Length && ChwIndex(c, h', w', H, W) < |src|
                          && a[HwcIndex(h', w', c, W, C)] == src[ChwIndex(c, h', w', H, W)]
          invariant forall w' :: 0 <= w' < w
                      ==> HwcIndex(h, w', c, W, C) < a.Length && ChwIndex(c, h, w', H, W) < |src|
                          && a[HwcIndex(h, w', c, W, C)] == src[ChwIndex(c, h, w', H, W)]
        {
          ChwInRange(c, h, w, H, W, C);
          HwcInRange(h, w, c, H, W, C);
          var hwcIdx := HwcIndex(h, w, c, W, C);
          forall h', w', c' | 0 <= w' < W && 0 <= c' < C && hwcIdx == HwcIndex(h', w', c', W, C)
            ensures h' == h && w' == w && c' == c
          {
            HwcInjective(h, w, c, h', w', c', W, C);
          }
          a[hwcIdx] := src[ChwIndex(c, h, w, H, W)];
        }
      }
    }
    dst := a[..];
    forall k | 0 <= k < |src|
      ensures dst[k] == ChwToHwcSeq(src, H, W, C)[k]
    {
      HwcSplit(k, H, W, C);
      ChwToHwcAt(src, H, W, C, HwcH(k, W, C), HwcW(k, W, C), HwcC(k, C));
    }
  }
}
