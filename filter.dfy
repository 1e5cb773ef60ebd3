/**
 * The box-kernel branch of `applyPostProcessing`: every texel at least one
 * texel from the top and left edges and at least two from the bottom and
 * right edges gets the 3x3 weighted mean of its neighbourhood, truncated to
 * an integer and clamped to a byte; its alpha is copied. Every other entry
 * of the result array is never assigned (a hole of `new Array(n)`), here
 * `None`.
 */
module Filter {
  import opened Common
  import opened Texels

  /** A lightmap's pixel data with its dimensions. */
  datatype Texture = Texture(data: seq<Byte>, tw: nat, th: nat)

  predicate WellSized(img: Texture)
  {
    |img.data| == TextureBytes(img.tw, img.th)
  }

  /** `boxFilter()`: the kernel, row by row. */
  const BoxKernel: seq<seq<real>> := [[0.075, 0.125, 0.075], [0.125, 0.200, 0.125], [0.075, 0.125, 0.075]]

  /** `Math.floor(Math.sqrt(3 * 3) / 2)`: the kernel reaches one texel in each direction. */
  const OffsetKernel: int := 1

  /** `factor`: the sum is divided by 1. */
  const BoxFactor: real := 1.0

  /** The texels the loops `1 <= ty < th - 2`, `1 <= tx < tw - 2` visit. */
  predicate Interior(tw: nat, th: nat, tx: int, ty: int)
  {
    1 <= tx < tw - 2 && 1 <= ty < th - 2
  }

  /** Row-major number of texel (tx, ty). */
  function TexelIndex(tw: nat, tx: int, ty: int): int
  {
    tw * ty + tx
  }

  /** The texel offset `calcTextureOffset` computes for integral coordinates. */
  lemma TextureOffsetOfTexel(tw: nat, tx: int, ty: int)
    ensures CalcTextureOffset(tw, ty as real, tx as real, 4) == TexelIndex(tw, tx, ty) * 4
  {
  }

  /** Every neighbour of an interior texel lies inside the texture. */
  lemma {:induction false} NeighbourInTexture(img: Texture, tx: int, ty: int, dx: int, dy: int)
    requires WellSized(img) && Interior(img.tw, img.th, tx, ty)
    requires -1 <= dx <= 1 && -1 <= dy <= 1
    ensures 0 <= TexelIndex(img.tw, tx + dx, ty + dy) * 4 && TexelIndex(img.tw, tx + dx, ty + dy) * 4 + 3 < |img.data|
  {
    var tw, th := img.tw, img.th;
    var row := ty + dy;
    assert 0 <= row <= th - 2;
    assert tw * row <= tw * (th - 2) by {
      assert tw * (th - 2) - tw * row == tw * (th - 2 - row);
    }
    assert tw * (th - 2) + tw <= tw * th by {
      assert tw * th - tw * (th - 2) == tw * 2;
    }
    assert 0 <= tw * row;
  }

  /** Tap `k` of the nine, in the order of the loops: `y` outer, `x` inner. */
  function TapDy(k: nat): int { k / 3 - OffsetKernel }

  function TapDx(k: nat): int { k % 3 - OffsetKernel }

  /** The kernel weight of tap `k`. */
  function TapWeight(k: nat): real
    requires k < 9
  {
    BoxKernel[TapDy(k) + OffsetKernel][TapDx(k) + OffsetKernel]
  }

  /** Channel `ch` of the neighbour a tap reads. */
  function TapByte(img: Texture, tx: int, ty: int, ch: nat, k: nat): Byte
    requires WellSized(img) && Interior(img.tw, img.th, tx, ty) && ch < 4 && k < 9
  {
    NeighbourInTexture(img, tx, ty, TapDx(k), TapDy(k));
    img.data[TexelIndex(img.tw, tx + TapDx(k), ty + TapDy(k)) * 4 + ch]
  }

  /** The nine bytes of channel `ch` the kernel reads around (tx, ty), in loop order. */
  function Neighbourhood(img: Texture, tx: int, ty: int, ch: nat): (r: seq<Byte>)
    requires WellSized(img) && Interior(img.tw, img.th, tx, ty) && ch < 4
    ensures |r| == 9
  {
    seq(9, k requires 0 <= k < 9 => TapByte(img, tx, ty, ch, k))
  }

  /** One tap's contribution, `preProcessing[textureOffset] * filterCoeff`. */
  function Weighted(v: Byte, w: real): real
  {
    v as real * w
  }

  /** `r += preProcessing[textureOffset] * filterCoeff` over the first `n` taps, on the bytes they read. */
  function TapSum(vals: seq<Byte>, n: nat): real
    requires n <= 9 && |vals| == 9
  {
    if n == 0 then 0.0 else TapSum(vals, n - 1) + Weighted(vals[n - 1], TapWeight(n - 1))
  }

  /** The sum of the first `n` kernel weights. */
  function KernelSum(n: nat): real
    requires n <= 9
  {
    if n == 0 then 0.0 else KernelSum(n - 1) + TapWeight(n - 1)
  }

  /** `x | 0`: truncation toward zero, then wrap-around into a signed 32-bit integer. */
  function ToInt32(v: real): (r: int)
    ensures -0x8000_0000 <= r < 0x8000_0000
    ensures 0.0 <= v < 2147483648.0 ==> r == v.Floor
  {
    var t := if v >= 0.0 then v.Floor else -((-v).Floor);
    (t + 0x8000_0000) % 0x1_0000_0000 - 0x8000_0000
  }

  /** The six `if`s after the conversion: values above 255 become 255, below 0 become 0. */
  function ClampByte(n: int): (b: Byte)
    ensures 0 <= n < 256 ==> b == n
  {
    if n > 255 then 255 else if n < 0 then 0 else n
  }

  /** The filtered value of colour channel `ch` at (tx, ty). */
  function BoxChannel(img: Texture, tx: int, ty: int, ch: nat): Byte
    requires WellSized(img) && Interior(img.tw, img.th, tx, ty) && ch < 3
  {
    ClampByte(ToInt32(TapSum(Neighbourhood(img, tx, ty, ch), 9) / BoxFactor))
  }

  /**
   * Entry `j` of `postProcessing` once the loops are done: for an interior
   * texel the filtered colour channels and the copied alpha, elsewhere
   * nothing.
   */
  function FilteredEntry(img: Texture, j: nat): Option<int>
    requires WellSized(img) && j < |img.data|
  {
    if img.tw == 0 then None
    else
      var t := j / 4;
      var tx, ty := t % img.tw, t / img.tw;
      if !Interior(img.tw, img.th, tx, ty) then None
      else if j % 4 == 3 then Some(img.data[j])
      else Some(BoxChannel(img, tx, ty, j % 4))
  }

  // ---------------------------------------------------------------------
  // The kernel
  // ---------------------------------------------------------------------

  /** The box kernel's weights are non-negative and sum to one. */
  lemma KernelIsAverage()
    ensures forall k :: 0 <= k < 9 ==> TapWeight(k) >= 0.0
    ensures KernelSum(9) == 1.0
  {
    assert KernelSum(3) == 0.275;
    assert KernelSum(6) == 0.725;
  }

  lemma ScaledByteBounds(v: real, w: real)
    requires 0.0 <= v <= 255.0 && w >= 0.0
    ensures 0.0 <= v * w <= 255.0 * w
  {
  }

  /** A weighted sum of bytes lies between 0 and 255 times the weights' sum. */
  lemma {:induction false} TapSumBounds(vals: seq<Byte>, n: nat)
    requires n <= 9 && |vals| == 9
    ensures 0.0 <= TapSum(vals, n) <= 255.0 * KernelSum(n)
  {
    if n > 0 {
      KernelIsAverage();
      TapSumBounds(vals, n - 1);
      ScaledByteBounds(vals[n - 1] as real, TapWeight(n - 1));
    }
  }

  /** Where all nine taps read the same value, the weighted sum is that value. */
  lemma {:induction false} TapSumOfFlat(vals: seq<Byte>, v: Byte)
    requires |vals| == 9
    requires forall k :: 0 <= k < 9 ==> vals[k] == v
    ensures TapSum(vals, 9) == v as real
  {
    var r := v as real;
    assert TapSum(vals, 1) == r * 0.075;
    assert TapSum(vals, 2) == r * 0.2;
    assert TapSum(vals, 3) == r * 0.275;
    assert TapSum(vals, 4) == r * 0.4;
    assert TapSum(vals, 5) == r * 0.6;
    assert TapSum(vals, 6) == r * 0.725;
    assert TapSum(vals, 7) == r * 0.8;
    assert TapSum(vals, 8) == r * 0.925;
    assert TapSum(vals, 9) == r * 1.0;
  }

  /**
   * On byte data the filter never leaves [0, 255]: the truncation is the
   * floor of the weighted mean and the clamps change nothing.
   */
  lemma BoxChannelIsFlooredMean(img: Texture, tx: int, ty: int, ch: nat)
    requires WellSized(img) && Interior(img.tw, img.th, tx, ty) && ch < 3
    ensures 0.0 <= TapSum(Neighbourhood(img, tx, ty, ch), 9) <= 255.0
    ensures BoxChannel(img, tx, ty, ch) == TapSum(Neighbourhood(img, tx, ty, ch), 9).Floor
  {
    KernelIsAverage();
    TapSumBounds(Neighbourhood(img, tx, ty, ch), 9);
  }

  /** A texel whose whole neighbourhood has one colour keeps that colour. */
  lemma BoxFilterKeepsFlatRegions(img: Texture, tx: int, ty: int, ch: nat, v: Byte)
    requires WellSized(img) && Interior(img.tw, img.th, tx, ty) && ch < 3
    requires forall k :: 0 <= k < 9 ==> Neighbourhood(img, tx, ty, ch)[k] == v
    ensures BoxChannel(img, tx, ty, ch) == v
  {
    TapSumOfFlat(Neighbourhood(img, tx, ty, ch), v);
  }

  // ---------------------------------------------------------------------
  // The loops
  // ---------------------------------------------------------------------

  /** Tap `3 * (y + 1) + (x + 1)` is the neighbour at offset (x, y). */
  lemma TapOfOffset(x: int, y: int)
    requires -1 <= x <= 1 && -1 <= y <= 1
    ensures TapDx(3 * (y + 1) + (x + 1)) == x && TapDy(3 * (y + 1) + (x + 1)) == y
  {
  }

  /**
   * The offset the kernel loops compute for the neighbour at (x, y) is that
   * neighbour's texel, inside the data, and its colour bytes are the tap's.
   */
  lemma TapAtOffset(img: Texture, tx: int, ty: int, x: int, y: int, o: int)
    requires WellSized(img) && Interior(img.tw, img.th, tx, ty)
    requires -1 <= x <= 1 && -1 <= y <= 1
    requires o == CalcTextureOffset(img.tw, (ty + y) as real, (tx + x) as real, 4)
    ensures 0 <= o && o + 3 < |img.data|
    ensures TapWeight(3 * (y + 1) + (x + 1)) == BoxKernel[y + OffsetKernel][x + OffsetKernel]
    ensures forall ch :: 0 <= ch < 4 ==> Neighbourhood(img, tx, ty, ch)[3 * (y + 1) + (x + 1)] == img.data[o + ch]
  {
    TapOfOffset(x, y);
    NeighbourInTexture(img, tx, ty, x, y);
    TextureOffsetOfTexel(img.tw, tx + x, ty + y);
  }

  /** The three colour sums hold the first `n` taps. */
  predicate PartialSums(img: Texture, tx: int, ty: int, n: nat, r: real, g: real, b: real)
    requires WellSized(img) && Interior(img.tw, img.th, tx, ty) && n <= 9
  {
    r == TapSum(Neighbourhood(img, tx, ty, 0), n) &&
    g == TapSum(Neighbourhood(img, tx, ty, 1), n) &&
    b == TapSum(Neighbourhood(img, tx, ty, 2), n)
  }

  /** One iteration of the inner kernel loop adds the tap at offset (x, y) to the three sums. */
  lemma AddTap(img: Texture, tx: int, ty: int, x: int, y: int, o: int, r: real, g: real, b: real)
    requires WellSized(img) && Interior(img.tw, img.th, tx, ty)
    requires -1 <= x <= 1 && -1 <= y <= 1
    requires o == CalcTextureOffset(img.tw, (ty + y) as real, (tx + x) as real, 4)
    requires PartialSums(img, tx, ty, 3 * (y + 1) + (x + 1), r, g, b)
    ensures 0 <= o && o + 3 < |img.data|
    ensures var w := BoxKernel[y + OffsetKernel][x + OffsetKernel];
            PartialSums(img, tx, ty, 3 * (y + 1) + (x + 1) + 1,
                        r + Weighted(img.data[o], w), g + Weighted(img.data[o + 1], w), b + Weighted(img.data[o + 2], w))
  {
    TapAtOffset(img, tx, ty, x, y, o);
  }

  /**
   * One pass of the inner kernel loop, row `y` of the kernel: adds its three
   * taps to the partial sums of the three colour channels.
   */
  method KernelRow(img: Texture, tx: int, ty: int, y: int, r0: real, g0: real, b0: real) returns (r: real, g: real, b: real)
    requires WellSized(img) && Interior(img.tw, img.th, tx, ty) && -1 <= y <= 1
    requires PartialSums(img, tx, ty, 3 * (y + 1), r0, g0, b0)
    ensures PartialSums(img, tx, ty, 3 * (y + 1) + 3, r, g, b)
  {
    r, g, b := r0, g0, b0;
    var x := -OffsetKernel;
    while x <= OffsetKernel
      invariant -OffsetKernel <= x <= OffsetKernel + 1
      invariant PartialSums(img, tx, ty, 3 * (y + 1) + (x + 1), r, g, b)
    {
      var filterCoeff := BoxKernel[y + OffsetKernel][x + OffsetKernel];
      var textureOffset := CalcTextureOffset(img.tw, (ty + y) as real, (tx + x) as real, 4);
      AddTap(img, tx, ty, x, y, textureOffset, r, g, b);
      r := r + Weighted(img.data[textureOffset], filterCoeff);
      g := g + Weighted(img.data[textureOffset + 1], filterCoeff);
      b := b + Weighted(img.data[textureOffset + 2], filterCoeff);
      x := x + 1;
    }
  }

  /** The two kernel loops around (tx, ty): the weighted sums of the three colour channels. */
  method Convolve(img: Texture, tx: int, ty: int) returns (r: real, g: real, b: real)
    requires WellSized(img) && Interior(img.tw, img.th, tx, ty)
    ensures r == TapSum(Neighbourhood(img, tx, ty, 0), 9)
    ensures g == TapSum(Neighbourhood(img, tx, ty, 1), 9)
    ensures b == TapSum(Neighbourhood(img, tx, ty, 2), 9)
  {
    r, g, b := 0.0, 0.0, 0.0;
    var y := -OffsetKernel;
    while y <= OffsetKernel
      invariant -OffsetKernel <= y <= OffsetKernel + 1
      invariant PartialSums(img, tx, ty, 3 * (y + 1), r, g, b)
    {
      r, g, b := KernelRow(img, tx, ty, y, r, g, b);
      y := y + 1;
    }
  }

  // ---------------------------------------------------------------------
  // The texel loops
  // ---------------------------------------------------------------------

  /** A texel number gives back its column and row. */
  lemma DecodeTexel(tw: nat, tx: int, ty: int)
    requires 0 <= tx < tw
    ensures TexelIndex(tw, tx, ty) / tw == ty && TexelIndex(tw, tx, ty) % tw == tx
  {
    DivModUnique(TexelIndex(tw, tx, ty), tw, ty, tx);
  }

  /** Texel numbers from row `ty` on lie in row `ty` or below. */
  lemma RowOfLaterTexel(tw: nat, t: int, ty: int)
    requires tw > 0 && t >= tw * ty
    ensures t / tw >= ty
  {
    DivModUnique(t, tw, t / tw, t % tw);
    if t / tw < ty {
      MultipleAtLeast(tw, ty - t / tw);
    }
  }

  /**
   * `postProcessing` after the loops have handled every texel numbered below
   * `c`: those entries are final, the others still unassigned.
   */
  ghost predicate FilledBelow(img: Texture, post: seq<Option<int>>, c: int)
    requires WellSized(img)
  {
    |post| == |img.data| &&
    (forall j :: 0 <= j < |post| && j / 4 < c ==> post[j] == FilteredEntry(img, j)) &&
    (forall j :: 0 <= j < |post| && j / 4 >= c ==> post[j] == None)
  }

  /** No entry of a texel numbered in [lo, hi) is ever assigned. */
  ghost predicate Unassigned(img: Texture, lo: int, hi: int)
    requires WellSized(img)
  {
    forall j :: 0 <= j < |img.data| && lo <= j / 4 < hi ==> FilteredEntry(img, j) == None
  }

  lemma SkipUnassigned(img: Texture, post: seq<Option<int>>, lo: int, hi: int)
    requires WellSized(img) && lo <= hi
    requires FilledBelow(img, post, lo) && Unassigned(img, lo, hi)
    ensures FilledBelow(img, post, hi)
  {
  }

  /**
   * Between the end of one row of the inner loop and the start of the next,
   * texels in the last columns and in column 0 are never assigned.
   */
  lemma {:induction false} RowGap(img: Texture, txEnd: int, ty: int)
    requires WellSized(img) && img.tw > 0 && 1 <= txEnd && img.tw - 2 <= txEnd <= img.tw
    ensures Unassigned(img, TexelIndex(img.tw, txEnd, ty), TexelIndex(img.tw, 1, ty + 1))
  {
    var tw := img.tw;
    forall j | 0 <= j < |img.data| && TexelIndex(tw, txEnd, ty) <= j / 4 < TexelIndex(tw, 1, ty + 1)
      ensures FilteredEntry(img, j) == None
    {
      var t := j / 4;
      if t < TexelIndex(tw, 0, ty + 1) {
        DivModUnique(t, tw, ty, t - tw * ty);
      } else {
        assert t == TexelIndex(tw, 0, ty + 1);
        DecodeTexel(tw, 0, ty + 1);
      }
    }
  }

  /** Once the outer loop stops, no later texel is ever assigned. */
  lemma {:induction false} TailUnassigned(img: Texture, ty: int)
    requires WellSized(img) && 1 <= ty && img.th - 2 <= ty
    ensures Unassigned(img, TexelIndex(img.tw, 1, ty), |img.data|)
  {
    var tw := img.tw;
    forall j | 0 <= j < |img.data| && TexelIndex(tw, 1, ty) <= j / 4
      ensures FilteredEntry(img, j) == None
    {
      if tw > 0 {
        RowOfLaterTexel(tw, j / 4, ty);
      }
    }
  }

  /** Row 0 and column 0 of row 1 come before the first filtered texel. */
  lemma {:induction false} HeadUnassigned(img: Texture)
    requires WellSized(img)
    ensures Unassigned(img, 0, TexelIndex(img.tw, 1, 1))
  {
    var tw := img.tw;
    forall j | 0 <= j < |img.data| && 0 <= j / 4 < TexelIndex(tw, 1, 1)
      ensures FilteredEntry(img, j) == None
    {
      var t := j / 4;
      if t < tw {
        DivModUnique(t, tw, 0, t);
      } else {
        DecodeTexel(tw, 0, 1);
      }
    }
  }

  /** Once no texel from `c` on is ever assigned, the whole array is final. */
  lemma FilledEverything(img: Texture, post: seq<Option<int>>, c: int)
    requires WellSized(img) && FilledBelow(img, post, c) && Unassigned(img, c, |post|)
    ensures forall j :: 0 <= j < |post| ==> post[j] == FilteredEntry(img, j)
  {
    forall j | 0 <= j < |post|
      ensures post[j] == FilteredEntry(img, j)
    {
      assert j / 4 <= j;
    }
  }

  /** Entry `ch` of texel (tx, ty) is the 4 * TexelIndex + ch-th byte. */
  lemma EntryOfTexel(img: Texture, tx: int, ty: int, ch: nat)
    requires WellSized(img) && Interior(img.tw, img.th, tx, ty) && ch < 4
    ensures 0 <= TexelIndex(img.tw, tx, ty) * 4 + ch < |img.data|
    ensures (TexelIndex(img.tw, tx, ty) * 4 + ch) / 4 == TexelIndex(img.tw, tx, ty)
    ensures FilteredEntry(img, TexelIndex(img.tw, tx, ty) * 4 + ch)
            == if ch == 3 then Some(img.data[TexelIndex(img.tw, tx, ty) * 4 + 3] as int) else Some(BoxChannel(img, tx, ty, ch) as int)
  {
    NeighbourInTexture(img, tx, ty, 0, 0);
    DecodeTexel(img.tw, tx, ty);
  }

  /** The four entries of texel number `t`. */
  lemma EntriesOfTexel(j: int, t: int)
    requires 0 <= j
    ensures j / 4 == t <==> t * 4 <= j < t * 4 + 4
  {
  }

  /**
   * The body of the `tx` loop: convolves texel (tx, ty) and stores its three
   * filtered channels and its alpha at `calcTextureOffset(tw, ty, tx, 4)`.
   */
  method FilterTexel(img: Texture, tx: int, ty: int, post: array<Option<int>>)
    requires WellSized(img) && Interior(img.tw, img.th, tx, ty) && post.Length == |img.data|
    modifies post
    ensures forall j :: 0 <= j < post.Length ==>
              post[j] == if j / 4 == TexelIndex(img.tw, tx, ty) then FilteredEntry(img, j) else old(post[j])
  {
    var r, g, b := Convolve(img, tx, ty);
    var textureOffset := CalcTextureOffset(img.tw, ty as real, tx as real, 4);
    TextureOffsetOfTexel(img.tw, tx, ty);
    EntryOfTexel(img, tx, ty, 0);
    EntryOfTexel(img, tx, ty, 1);
    EntryOfTexel(img, tx, ty, 2);
    EntryOfTexel(img, tx, ty, 3);
    post[textureOffset] := Some(ClampByte(ToInt32(r / BoxFactor)) as int);
    post[textureOffset + 1] := Some(ClampByte(ToInt32(g / BoxFactor)) as int);
    post[textureOffset + 2] := Some(ClampByte(ToInt32(b / BoxFactor)) as int);
    post[textureOffset + 3] := Some(img.data[textureOffset + 3] as int);
    forall j | 0 <= j < post.Length
      ensures post[j] == if j / 4 == TexelIndex(img.tw, tx, ty) then FilteredEntry(img, j) else old(post[j])
    {
      EntriesOfTexel(j, TexelIndex(img.tw, tx, ty));
    }
  }

  /** Filtering texel number `t` extends the finished prefix by one texel. */
  lemma FillTexel(img: Texture, before: seq<Option<int>>, after: seq<Option<int>>, t: int)
    requires WellSized(img) && FilledBelow(img, before, t) && |after| == |before|
    requires forall j :: 0 <= j < |after| ==> after[j] == if j / 4 == t then FilteredEntry(img, j) else before[j]
    ensures FilledBelow(img, after, t + 1)
  {
  }

  /** One pass of the `tx` loop: row `ty` of the texture. */
  method FilterRow(img: Texture, ty: int, post: array<Option<int>>)
    requires WellSized(img) && 1 <= ty < img.th - 2
    requires FilledBelow(img, post[..], TexelIndex(img.tw, 1, ty))
    modifies post
    ensures FilledBelow(img, post[..], TexelIndex(img.tw, 1, ty + 1))
  {
    var tw: int := img.tw;
    var tx := 1;
    while tx < tw - 2
      invariant 1 <= tx && (tx <= tw - 2 || tx == 1)
      invariant FilledBelow(img, post[..], TexelIndex(tw, tx, ty))
    {
      ghost var before := post[..];
      FilterTexel(img, tx, ty, post);
      FillTexel(img, before, post[..], TexelIndex(tw, tx, ty));
      tx := tx + 1;
    }
    if tw > 0 {
      RowGap(img, tx, ty);
      SkipUnassigned(img, post[..], TexelIndex(tw, tx, ty), TexelIndex(tw, 1, ty + 1));
    }
  }

  /**
   * `applyPostProcessing` with the box kernel, for one mesh: the new array
   * holds exactly the filtered entries.
   */
  method ApplyBoxFilter(img: Texture) returns (post: array<Option<int>>)
    requires WellSized(img)
    ensures fresh(post) && post.Length == |img.data|
    ensures forall j :: 0 <= j < post.Length ==> post[j] == FilteredEntry(img, j)
  {
    var th: int := img.th;
    post := new Option<int>[|img.data|](_ => None);
    HeadUnassigned(img);
    SkipUnassigned(img, post[..], 0, TexelIndex(img.tw, 1, 1));
    var ty := 1;
    while ty < th - 2
      invariant 1 <= ty && (ty <= th - 2 || ty == 1)
      invariant FilledBelow(img, post[..], TexelIndex(img.tw, 1, ty))
    {
      FilterRow(img, ty, post);
      ty := ty + 1;
    }
    TailUnassigned(img, ty);
    FilledEverything(img, post[..], TexelIndex(img.tw, 1, ty));
  }
}
