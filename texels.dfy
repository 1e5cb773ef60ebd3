/**
 * The texel buffer of a lightmap: four bytes (r, g, b, a) per texel, row
 * by row, in a `Uint8Array` of `tw * th * 4` bytes. Models
 * `calcTextureOffset`, `setLumelColor`, `getLumelColor`, the scanline loop
 * of `lightMapGenerationPerLumel` and the box-kernel branch of
 * `applyPostProcessing`.
 */
module Texels {
  import opened Common
  import opened Config
  import opened Geometry
  import opened UvLayout

  // ---------------------------------------------------------------------
  // Offsets and byte conversion
  // ---------------------------------------------------------------------

  /** `Math.ceil`: the least integer at or above `x`. */
  function Ceil(x: real): (r: int)
    ensures r as real - 1.0 < x <= r as real
  {
    -((-x).Floor)
  }

  /** `calcTextureOffset`: the first byte of texel (floor x, floor y) with `channels` bytes per texel. */
  function CalcTextureOffset(textureWidth: int, yOffset: real, xOffset: real, channels: int): int
  {
    (textureWidth * yOffset.Floor + xOffset.Floor) * channels
  }

  /** The offset `setLumelColor` and `getLumelColor` compute: they floor the coordinates once more. */
  function LumelOffset(textureWidth: int, x: real, y: real): (ai: int)
    ensures ai % 4 == 0
  {
    CalcTextureOffset(textureWidth, y.Floor as real, x.Floor as real, 4)
  }

  /** Flooring twice is flooring once: the lumel offset is that of texel (floor x, floor y). */
  lemma LumelOffsetIsTexelOffset(textureWidth: int, x: real, y: real)
    ensures LumelOffset(textureWidth, x, y) == CalcTextureOffset(textureWidth, y, x, 4)
    ensures LumelOffset(textureWidth, x, y) == (textureWidth * y.Floor + x.Floor) * 4
  {
  }

  /** The integer a `Uint8Array` element stores for an integral number: its value modulo 256. */
  function ToUint8(n: int): (b: Byte)
    ensures 0 <= n < 256 ==> b == n
    ensures (b - n) % 256 == 0
  {
    n % 256
  }

  /** A colour after `color.map(multiplyColorBy(255))`: `Math.ceil(255 * v)` per channel. */
  datatype IntRgb = IntRgb(r: int, g: int, b: int)

  function MultiplyColorBy255(c: Rgb): IntRgb
  {
    IntRgb(Ceil(255.0 * c.r), Ceil(255.0 * c.g), Ceil(255.0 * c.b))
  }

  /** A channel in [0, 1] becomes a byte without wrapping, 0 and 1 going to 0 and 255. */
  lemma {:induction false} ChannelToByte(v: real)
    requires 0.0 <= v <= 1.0
    ensures 0 <= Ceil(255.0 * v) <= 255
    ensures ToUint8(Ceil(255.0 * v)) == Ceil(255.0 * v)
    ensures v == 0.0 ==> Ceil(255.0 * v) == 0
    ensures v == 1.0 ==> Ceil(255.0 * v) == 255
  {
    var n := Ceil(255.0 * v);
    assert n as real - 1.0 < 255.0 * v <= n as real;
    assert n < 256;
  }

  // ---------------------------------------------------------------------
  // One lumel (setLumelColor, getLumelColor)
  // ---------------------------------------------------------------------

  /** Byte `k` of the four a lumel write stores: r, g, b, then the opaque alpha 255. */
  function LumelByte(c: IntRgb, k: int): Byte
  {
    if k == 0 then ToUint8(c.r) else if k == 1 then ToUint8(c.g) else if k == 2 then ToUint8(c.b) else 255
  }

  /** Whether `setLumelColor` writes at offset `ai`: strictly after texel 0 and before the end. */
  predicate InBuffer(ai: int, len: int)
  {
    0 < ai < len
  }

  /**
   * The buffer after a lumel write at offset `ai`: the four bytes from `ai`
   * that exist in the buffer, and only when `ai` is in range (a typed
   * array ignores stores past its end).
   */
  function SetLumel(buf: seq<Byte>, ai: int, c: IntRgb): (r: seq<Byte>)
    ensures |r| == |buf|
    ensures forall j :: 0 <= j < |buf| ==>
              r[j] == if InBuffer(ai, |buf|) && ai <= j < ai + 4 then LumelByte(c, j - ai) else buf[j]
  {
    seq(|buf|, j requires 0 <= j < |buf| => ByteAfterWrite(buf, ai, c, j))
  }

  function ByteAfterWrite(buf: seq<Byte>, ai: int, c: IntRgb, j: int): Byte
    requires 0 <= j < |buf|
  {
    if InBuffer(ai, |buf|) && ai <= j < ai + 4 then LumelByte(c, j - ai) else buf[j]
  }

  /** `setLumelColor`: stores (r, g, b, 255) at the lumel of (x, y), in place. */
  method SetLumelColor(x: real, y: real, buf8: array<Byte>, color: IntRgb, textureWidth: int)
    modifies buf8
    ensures buf8[..] == SetLumel(old(buf8[..]), LumelOffset(textureWidth, x, y), color)
  {
    var ai := CalcTextureOffset(textureWidth, y.Floor as real, x.Floor as real, 4);
    if ai > 0 && ai < buf8.Length {
      buf8[ai] := ToUint8(color.r);
      if ai + 1 < buf8.Length {
        buf8[ai + 1] := ToUint8(color.g);
      }
      if ai + 2 < buf8.Length {
        buf8[ai + 2] := ToUint8(color.b);
      }
      if ai + 3 < buf8.Length {
        buf8[ai + 3] := 255;
      }
    }
  }

  /**
   * The colour `getLumelColor` reads at offset `ai`: the three colour bytes,
   * or black when `ai` is out of range. Buffers hold whole texels, so the
   * three bytes exist whenever `ai` does.
   */
  function LumelAt(buf: seq<Byte>, ai: int): Rgb
    requires |buf| % 4 == 0 && ai % 4 == 0
  {
    if InBuffer(ai, |buf|) then Rgb(buf[ai] as real, buf[ai + 1] as real, buf[ai + 2] as real) else Black
  }

  /** `getLumelColor`: the colour stored at the lumel of (x, y). */
  method GetLumelColor(x: real, y: real, buf8: array<Byte>, textureWidth: int) returns (color: Rgb)
    requires buf8.Length % 4 == 0
    ensures color == LumelAt(buf8[..], LumelOffset(textureWidth, x, y))
  {
    var ai := CalcTextureOffset(textureWidth, y.Floor as real, x.Floor as real, 4);
    color := Black;
    if ai > 0 && ai < buf8.Length {
      color := Rgb(buf8[ai] as real, buf8[ai + 1] as real, buf8[ai + 2] as real);
    }
  }

  /**
   * A write leaves every byte outside its own four unchanged; in particular
   * texel 0 is never written, and a write out of range changes nothing.
   */
  lemma {:induction false} SetLumelFrame(buf: seq<Byte>, ai: int, c: IntRgb, j: int)
    requires ai % 4 == 0 && 0 <= j < |buf|
    requires !(ai <= j < ai + 4) || j < 4 || !InBuffer(ai, |buf|)
    ensures SetLumel(buf, ai, c)[j] == buf[j]
  {
  }

  /** An out-of-range offset is neither written nor read. */
  lemma SetLumelOutOfRange(buf: seq<Byte>, ai: int, c: IntRgb)
    requires |buf| % 4 == 0 && ai % 4 == 0 && !InBuffer(ai, |buf|)
    ensures SetLumel(buf, ai, c) == buf
    ensures LumelAt(buf, ai) == Black
  {
    assert forall j :: 0 <= j < |buf| ==> SetLumel(buf, ai, c)[j] == buf[j];
  }

  /** The colour read back from the bytes a write of `c` stores. */
  function Stored(c: IntRgb): Rgb
  {
    Rgb(ToUint8(c.r) as real, ToUint8(c.g) as real, ToUint8(c.b) as real)
  }

  /** Reading a lumel back after writing it returns the colour written, modulo 256. */
  lemma {:induction false} ReadAfterWrite(buf: seq<Byte>, ai: int, c: IntRgb)
    requires |buf| % 4 == 0 && ai % 4 == 0 && InBuffer(ai, |buf|)
    ensures LumelAt(SetLumel(buf, ai, c), ai) == Stored(c)
    ensures SetLumel(buf, ai, c)[ai + 3] == 255
  {
    assert ai + 3 < |buf|;
  }

  /** Writing the same lumel twice keeps only the second colour. */
  lemma SetLumelOverwrites(buf: seq<Byte>, ai: int, c: IntRgb, d: IntRgb)
    ensures SetLumel(SetLumel(buf, ai, c), ai, d) == SetLumel(buf, ai, d)
  {
  }

  /** Writes to different lumels commute. */
  lemma SetLumelCommutes(buf: seq<Byte>, ai: int, aj: int, c: IntRgb, d: IntRgb)
    requires ai % 4 == 0 && aj % 4 == 0 && ai != aj
    ensures SetLumel(SetLumel(buf, ai, c), aj, d) == SetLumel(SetLumel(buf, aj, d), ai, c)
  {
  }

  // ---------------------------------------------------------------------
  // The scanline loop of lightMapGenerationPerLumel
  // ---------------------------------------------------------------------

  /** How many unit steps from `b` stay below `e`: the iterations of `for (x = b; x < e; x++)`. */
  function Steps(b: real, e: real): (n: nat)
    ensures b < e ==> n > 0
  {
    if b < e then Ceil(e - b) else 0
  }

  lemma StepsDecrease(b: real, e: real)
    requires b < e
    ensures Steps(b + 1.0, e) == Steps(b, e) - 1
  {
    var r, r' := Ceil(e - b), Ceil(e - (b + 1.0));
    if b + 1.0 >= e {
      assert r == 1;
    } else {
      assert r' == r - 1;
    }
  }

  /**
   * The colour a lumel receives. Two-pass baking computes it from the
   * point alone (the direct light of pass 1, or the indirect light of pass
   * 2 over the first pass's texture); path tracing refines the colour
   * already in the buffer and clips the result to [0, 1].
   */
  datatype Shader =
    | DirectShader(direct: (real, real) -> Rgb)
    | PathShader(trace: (real, real, Rgb) -> Rgb)

  /**
   * What the loop over one face needs: the inside test of its texel
   * triangle, the shader, the row flip and the texture size.
   */
  datatype Scan = Scan(inTri: (real, real) -> bool, shader: Shader, mode: UvMethod, tw: nat, th: nat)

  /** The scan of one face: its inside test is `pointInTriangleO` on the texel triangle `a b c`. */
  function TriangleScan(a: Vec2, b: Vec2, c: Vec2, smoothing: real, shader: Shader, mode: UvMethod, tw: nat, th: nat): Scan
  {
    Scan((x: real, y: real) => PointInTriangleO(a, b, c, Vec2(x, y), smoothing).inTri, shader, mode, tw, th)
  }

  /** Whether the loop shades the texel (x, yOff). */
  predicate Inside(sc: Scan, x: real, yOff: real)
  {
    sc.inTri(x, yOff)
  }

  /** The bytes `color.map(multiplyColorBy(255))` produces for the lumel at (x, yOff). */
  function LumelColour(sc: Scan, buf: seq<Byte>, x: real, yOff: real): IntRgb
    requires |buf| % 4 == 0
  {
    match sc.shader
    case DirectShader(direct) => MultiplyColorBy255(direct(x, yOff))
    case PathShader(trace) =>
      MultiplyColorBy255(ColorClip(trace(x, yOff, LumelAt(buf, LumelOffset(sc.tw, x, yOff))), 0.0, 1.0))
  }

  /** One lumel shaded and stored. */
  function PaintLumel(sc: Scan, buf: seq<Byte>, x: real, yOff: real): (r: seq<Byte>)
    requires |buf| % 4 == 0
    ensures |r| == |buf|
  {
    SetLumel(buf, LumelOffset(sc.tw, x, yOff), LumelColour(sc, buf, x, yOff))
  }

  /**
   * The inner loop from `x` on: skip texels outside the triangle until the
   * first one inside (`acc` becomes true), shade texels while they are
   * inside, and stop at the first one outside after that.
   */
  function ScanRow(sc: Scan, buf: seq<Byte>, x: real, xEnd: real, yOff: real, acc: bool): (r: seq<Byte>)
    requires |buf| % 4 == 0
    ensures |r| == |buf|
    decreases Steps(x, xEnd)
  {
    if x >= xEnd then buf
    else
      StepsDecrease(x, xEnd);
      if !Inside(sc, x, yOff) then
        if acc then buf else ScanRow(sc, buf, x + 1.0, xEnd, yOff, false)
      else ScanRow(sc, PaintLumel(sc, buf, x, yOff), x + 1.0, xEnd, yOff, true)
  }

  /** The outer loop from row `y` on, each row with its flipped texel row `calcYOffset(th, y)`. */
  function ScanRows(sc: Scan, buf: seq<Byte>, rect: FaceRect, y: real): (r: seq<Byte>)
    requires |buf| % 4 == 0
    ensures |r| == |buf|
    decreases Steps(y, rect.yEnd)
  {
    if y >= rect.yEnd then buf
    else
      StepsDecrease(y, rect.yEnd);
      var yOff := CalcYOffset(sc.mode, sc.th as real, y);
      ScanRows(sc, ScanRow(sc, buf, rect.xBegin, rect.xEnd, yOff, false), rect, y + 1.0)
  }

  /** The two nested loops over one face's rectangle, shading into `buf8` in place. */
  method ScanFace(sc: Scan, rect: FaceRect, buf8: array<Byte>)
    requires buf8.Length % 4 == 0
    modifies buf8
    ensures buf8[..] == ScanRows(sc, old(buf8[..]), rect, rect.yBegin)
  {
    var y := rect.yBegin;
    while y < rect.yEnd
      invariant ScanRows(sc, buf8[..], rect, y) == ScanRows(sc, old(buf8[..]), rect, rect.yBegin)
      decreases Steps(y, rect.yEnd)
    {
      StepsDecrease(y, rect.yEnd);
      ghost var rowStart := buf8[..];
      var acc := false;
      var x := rect.xBegin;
      while x < rect.xEnd
        invariant ScanRow(sc, buf8[..], x, rect.xEnd, CalcYOffset(sc.mode, sc.th as real, y), acc)
               == ScanRow(sc, rowStart, rect.xBegin, rect.xEnd, CalcYOffset(sc.mode, sc.th as real, y), false)
        decreases Steps(x, rect.xEnd)
      {
        StepsDecrease(x, rect.xEnd);
        var yOffset := CalcYOffset(sc.mode, sc.th as real, y);
        if !sc.inTri(x, yOffset) {
          if acc {
            break;
          }
          x := x + 1.0;
          continue;
        }
        acc := true;
        var color;
        match sc.shader {
          case DirectShader(direct) =>
            color := direct(x, yOffset);
          case PathShader(trace) =>
            var current := GetLumelColor(x, yOffset, buf8, sc.tw);
            color := ColorClip(trace(x, yOffset, current), 0.0, 1.0);
        }
        SetLumelColor(x, yOffset, buf8, MultiplyColorBy255(color), sc.tw);
        x := x + 1.0;
      }
      y := y + 1.0;
    }
  }

  // ---------------------------------------------------------------------
  // What one row of the loop paints
  // ---------------------------------------------------------------------

  /** Texel `j` of a row that starts at `x` is inside the triangle. */
  predicate InsideAt(sc: Scan, x: real, j: nat, yOff: real)
  {
    Inside(sc, x + j as real, yOff)
  }

  /** Texel `j` of a row that starts at `x` is visited by `for (...; x < xEnd; x++)`. */
  predicate InRow(x: real, j: nat, xEnd: real)
  {
    x + j as real < xEnd
  }

  /** `count` consecutive lumels from `x`, each shaded and stored in turn. */
  function PaintRun(sc: Scan, buf: seq<Byte>, x: real, count: nat, yOff: real): (r: seq<Byte>)
    requires |buf| % 4 == 0
    ensures |r| == |buf|
    decreases count
  {
    if count == 0 then buf else PaintRun(sc, PaintLumel(sc, buf, x, yOff), x + 1.0, count - 1, yOff)
  }

  lemma ShiftRow(sc: Scan, x: real, j: nat, yOff: real, xEnd: real)
    ensures InsideAt(sc, x + 1.0, j, yOff) == InsideAt(sc, x, j + 1, yOff)
    ensures InRow(x + 1.0, j, xEnd) == InRow(x, j + 1, xEnd)
  {
    assert (x + 1.0) + j as real == x + (j + 1) as real;
  }

  /** One step of the inner loop at a texel inside the triangle: shade it and go on with `acc` set. */
  lemma ScanRowPaints(sc: Scan, buf: seq<Byte>, x: real, xEnd: real, yOff: real, acc: bool)
    requires |buf| % 4 == 0 && x < xEnd && Inside(sc, x, yOff)
    ensures ScanRow(sc, buf, x, xEnd, yOff, acc) == ScanRow(sc, PaintLumel(sc, buf, x, yOff), x + 1.0, xEnd, yOff, true)
  {
  }

  /** One step of the inner loop at a texel outside the triangle before any inside one: skip it. */
  lemma ScanRowSkips(sc: Scan, buf: seq<Byte>, x: real, xEnd: real, yOff: real)
    requires |buf| % 4 == 0 && x < xEnd && !Inside(sc, x, yOff)
    ensures ScanRow(sc, buf, x, xEnd, yOff, false) == ScanRow(sc, buf, x + 1.0, xEnd, yOff, false)
  {
  }

  /** The inner loop stops at the end of the row, or at an outside texel once a run has begun. */
  lemma ScanRowStops(sc: Scan, buf: seq<Byte>, x: real, xEnd: real, yOff: real, acc: bool)
    requires |buf| % 4 == 0 && (x >= xEnd || (acc && !Inside(sc, x, yOff)))
    ensures ScanRow(sc, buf, x, xEnd, yOff, acc) == buf
  {
  }

  /** Once a run has begun, the loop paints it to its end and stops there. */
  lemma {:induction false} ScanRowFinishesRun(sc: Scan, buf: seq<Byte>, x: real, xEnd: real, yOff: real, e: nat, acc: bool)
    requires |buf| % 4 == 0
    requires InsideBetween(sc, x, 0, e, xEnd, yOff) && RunEndsAt(sc, x, e, xEnd, yOff)
    requires acc || e > 0 || !InRow(x, 0, xEnd)
    ensures ScanRow(sc, buf, x, xEnd, yOff, acc) == PaintRun(sc, buf, x, e, yOff)
    decreases e
  {
    assert x + 0 as real == x;
    if e == 0 {
      ScanRowStops(sc, buf, x, xEnd, yOff, acc);
    } else {
      assert InRow(x, 0, xEnd) && InsideAt(sc, x, 0, yOff);
      ShiftRun(sc, x, xEnd, yOff, e);
      ScanRowPaints(sc, buf, x, xEnd, yOff, acc);
      ScanRowFinishesRun(sc, PaintLumel(sc, buf, x, yOff), x + 1.0, xEnd, yOff, e - 1, true);
    }
  }

  lemma {:induction false} ShiftRun(sc: Scan, x: real, xEnd: real, yOff: real, e: nat)
    requires 0 < e && InsideBetween(sc, x, 0, e, xEnd, yOff) && RunEndsAt(sc, x, e, xEnd, yOff)
    ensures InsideBetween(sc, x + 1.0, 0, e - 1, xEnd, yOff) && RunEndsAt(sc, x + 1.0, e - 1, xEnd, yOff)
  {
    var x' := x + 1.0;
    forall j: nat | j < e - 1
      ensures InRow(x', j, xEnd) && InsideAt(sc, x', j, yOff)
    {
      ShiftRow(sc, x, j, yOff, xEnd);
    }
    ShiftRow(sc, x, e - 1, yOff, xEnd);
  }

  /** No texel before `s` is inside (and all of them are visited). */
  predicate OutsideBefore(sc: Scan, x: real, s: nat, xEnd: real, yOff: real)
  {
    forall j: nat :: j < s ==> InRow(x, j, xEnd) && !InsideAt(sc, x, j, yOff)
  }

  /** Texels `s` to `e - 1` are visited and inside. */
  predicate InsideBetween(sc: Scan, x: real, s: nat, e: nat, xEnd: real, yOff: real)
  {
    forall j: nat :: s <= j < e ==> InRow(x, j, xEnd) && InsideAt(sc, x, j, yOff)
  }

  /** Texel `e` ends a run: it is past the row, or outside. */
  predicate RunEndsAt(sc: Scan, x: real, e: nat, xEnd: real, yOff: real)
  {
    !InRow(x, e, xEnd) || !InsideAt(sc, x, e, yOff)
  }

  /** Texels `s` to `e - 1` are the first run of the row from `x`; an empty run means no texel is inside. */
  predicate FirstRun(sc: Scan, x: real, s: nat, e: nat, xEnd: real, yOff: real)
  {
    OutsideBefore(sc, x, s, xEnd, yOff) && InsideBetween(sc, x, s, e, xEnd, yOff) && RunEndsAt(sc, x, e, xEnd, yOff) &&
    (s < e || !InRow(x, s, xEnd))
  }

  /** Texel `j` of the row from `x + d` is texel `d + j` of the row from `x`. */
  lemma ShiftRowBy(sc: Scan, x: real, d: nat, j: nat, yOff: real, xEnd: real)
    ensures InsideAt(sc, x + d as real, j, yOff) == InsideAt(sc, x, d + j, yOff)
    ensures InRow(x + d as real, j, xEnd) == InRow(x, d + j, xEnd)
  {
    assert (x + d as real) + j as real == x + (d + j) as real;
  }

  /** The texels before the first inside one are skipped, one by one. */
  lemma {:induction false} SkipOutside(sc: Scan, buf: seq<Byte>, x: real, xEnd: real, yOff: real, s: nat)
    requires |buf| % 4 == 0 && OutsideBefore(sc, x, s, xEnd, yOff)
    ensures ScanRow(sc, buf, x, xEnd, yOff, false) == ScanRow(sc, buf, x + s as real, xEnd, yOff, false)
    decreases s
  {
    assert x + 0 as real == x;
    if s > 0 {
      assert InRow(x, 0, xEnd) && !InsideAt(sc, x, 0, yOff);
      ScanRowSkips(sc, buf, x, xEnd, yOff);
      var x' := x + 1.0;
      forall j: nat | j < s - 1
        ensures InRow(x', j, xEnd) && !InsideAt(sc, x', j, yOff)
      {
        ShiftRow(sc, x, j, yOff, xEnd);
      }
      SkipOutside(sc, buf, x + 1.0, xEnd, yOff, s - 1);
      assert (x + 1.0) + (s - 1) as real == x + s as real;
    }
  }

  /** The first run, seen from its first texel `x + s`, starts there. */
  lemma RunFromItsStart(sc: Scan, x: real, xEnd: real, yOff: real, s: nat, e: nat)
    requires s <= e && FirstRun(sc, x, s, e, xEnd, yOff)
    ensures InsideBetween(sc, x + s as real, 0, e - s, xEnd, yOff) && RunEndsAt(sc, x + s as real, e - s, xEnd, yOff)
    ensures e - s > 0 || !InRow(x + s as real, 0, xEnd)
  {
    var x' := x + s as real;
    forall j: nat | j < e - s
      ensures InRow(x', j, xEnd) && InsideAt(sc, x', j, yOff)
    {
      ShiftRowBy(sc, x, s, j, yOff, xEnd);
    }
    ShiftRowBy(sc, x, s, e - s, yOff, xEnd);
    ShiftRowBy(sc, x, s, 0, yOff, xEnd);
  }

  /**
   * A row paints exactly its first run of inside texels: texels `s` to
   * `e - 1` when `s` is the first inside texel and `e` the first outside
   * one after it, and nothing when no texel of the row is inside.
   */
  lemma ScanRowPaintsFirstRun(sc: Scan, buf: seq<Byte>, x: real, xEnd: real, yOff: real, s: nat, e: nat)
    requires |buf| % 4 == 0 && s <= e
    requires FirstRun(sc, x, s, e, xEnd, yOff)
    ensures ScanRow(sc, buf, x, xEnd, yOff, false) == PaintRun(sc, buf, x + s as real, e - s, yOff)
  {
    SkipOutside(sc, buf, x, xEnd, yOff, s);
    RunFromItsStart(sc, x, xEnd, yOff, s, e);
    ScanRowFinishesRun(sc, buf, x + s as real, xEnd, yOff, e - s, false);
  }

  /**
   * The first run holds every inside texel of the row: the loop's early
   * `break` misses none, because the inside texels of a row are contiguous.
   */
  lemma {:induction false} FirstRunHoldsEveryInsideTexel(sc: Scan, a: Vec2, b: Vec2, c: Vec2, smoothing: real,
                                                         x: real, xEnd: real, yOff: real, s: nat, e: nat)
    requires sc == TriangleScan(a, b, c, smoothing, sc.shader, sc.mode, sc.tw, sc.th)
    requires s < e && InsideBetween(sc, x, s, e, xEnd, yOff) && RunEndsAt(sc, x, e, xEnd, yOff)
    ensures forall j: nat :: InRow(x, j, xEnd) && InsideAt(sc, x, j, yOff) && j >= s ==> j < e
  {
    forall j: nat | InRow(x, j, xEnd) && InsideAt(sc, x, j, yOff) && j >= s
      ensures j < e
    {
      if j >= e {
        assert InsideAt(sc, x, s, yOff);
        AcceptedTexelsAreContiguous(a, b, c, yOff, x + s as real, x + e as real, x + j as real, smoothing);
      }
    }
  }

  // ---------------------------------------------------------------------
  // What a run stores
  // ---------------------------------------------------------------------

  /** Consecutive texels of a row have consecutive lumels. */
  lemma RowLumelOffset(tw: int, x: real, j: nat, y: real)
    ensures LumelOffset(tw, x + j as real, y) == LumelOffset(tw, x, y) + 4 * j
  {
    assert (x + j as real).Floor == x.Floor + j;
  }

  /** A run of `count` lumels from `x` writes only the bytes of those lumels, and never texel 0. */
  lemma {:induction false} PaintRunFrame(sc: Scan, buf: seq<Byte>, x: real, count: nat, yOff: real, i: int)
    requires |buf| % 4 == 0 && 0 <= i < |buf|
    requires i < 4 || i < LumelOffset(sc.tw, x, yOff) || LumelOffset(sc.tw, x, yOff) + 4 * count <= i
    ensures PaintRun(sc, buf, x, count, yOff)[i] == buf[i]
    decreases count
  {
    if count > 0 {
      var ai := LumelOffset(sc.tw, x, yOff);
      SetLumelFrame(buf, ai, LumelColour(sc, buf, x, yOff), i);
      RowLumelOffset(sc.tw, x, 1, yOff);
      assert x + 1 as real == x + 1.0;
      PaintRunFrame(sc, PaintLumel(sc, buf, x, yOff), x + 1.0, count - 1, yOff, i);
    }
  }

  /** The colour a lumel receives depends on the buffer only through that lumel. */
  lemma LumelColourIsLocal(sc: Scan, buf: seq<Byte>, buf': seq<Byte>, x: real, yOff: real)
    requires |buf| % 4 == 0 && |buf'| == |buf|
    requires LumelAt(buf, LumelOffset(sc.tw, x, yOff)) == LumelAt(buf', LumelOffset(sc.tw, x, yOff))
    ensures LumelColour(sc, buf, x, yOff) == LumelColour(sc, buf', x, yOff)
  {
  }

  /** Writing one lumel leaves the colour read at any other lumel unchanged. */
  lemma {:induction false} OtherLumelUnchanged(buf: seq<Byte>, ai: int, aj: int, c: IntRgb)
    requires |buf| % 4 == 0 && ai % 4 == 0 && aj % 4 == 0 && ai != aj
    ensures LumelAt(SetLumel(buf, ai, c), aj) == LumelAt(buf, aj)
  {
    if InBuffer(aj, |buf|) {
      SetLumelFrame(buf, ai, c, aj);
      SetLumelFrame(buf, ai, c, aj + 1);
      SetLumelFrame(buf, ai, c, aj + 2);
    }
  }

  /**
   * After a run, lumel `j` of it holds the colour shaded for texel `x + j`
   * from the buffer as it was before the run: the run's lumels are
   * distinct, so no write of the run is overwritten or read by another.
   */
  /** The first lumel of a run keeps the colour written to it. */
  lemma {:induction false} PaintRunStoresFirst(sc: Scan, buf: seq<Byte>, x: real, count: nat, yOff: real)
    requires |buf| % 4 == 0 && 0 < count && InBuffer(LumelOffset(sc.tw, x, yOff), |buf|)
    ensures LumelAt(PaintRun(sc, buf, x, count, yOff), LumelOffset(sc.tw, x, yOff)) == Stored(LumelColour(sc, buf, x, yOff))
  {
    var ai := LumelOffset(sc.tw, x, yOff);
    var b1 := PaintLumel(sc, buf, x, yOff);
    var x' := x + 1.0;
    RowLumelOffset(sc.tw, x, 1, yOff);
    assert x + 1 as real == x';
    ReadAfterWrite(buf, ai, LumelColour(sc, buf, x, yOff));
    PaintRunFrame(sc, b1, x', count - 1, yOff, ai);
    PaintRunFrame(sc, b1, x', count - 1, yOff, ai + 1);
    PaintRunFrame(sc, b1, x', count - 1, yOff, ai + 2);
  }

  /** Shading lumel `x + j` after lumel `x` was written gives the colour it would have had before. */
  lemma {:induction false} LaterLumelUnaffected(sc: Scan, buf: seq<Byte>, x: real, yOff: real, j: nat)
    requires |buf| % 4 == 0 && 0 < j
    ensures LumelColour(sc, PaintLumel(sc, buf, x, yOff), x + j as real, yOff) == LumelColour(sc, buf, x + j as real, yOff)
  {
    var ai := LumelOffset(sc.tw, x, yOff);
    RowLumelOffset(sc.tw, x, j, yOff);
    OtherLumelUnchanged(buf, ai, ai + 4 * j, LumelColour(sc, buf, x, yOff));
    LumelColourIsLocal(sc, buf, PaintLumel(sc, buf, x, yOff), x + j as real, yOff);
  }

  /**
   * After a run, lumel `j` of it holds the colour shaded for texel `x + j`
   * from the buffer as it was before the run: the run's lumels are
   * distinct, so no write of the run is overwritten or read by another.
   */
  lemma {:induction false} PaintRunStores(sc: Scan, buf: seq<Byte>, x: real, count: nat, yOff: real, j: nat)
    requires |buf| % 4 == 0 && j < count
    requires InBuffer(LumelOffset(sc.tw, x, yOff) + 4 * j, |buf|)
    ensures LumelAt(PaintRun(sc, buf, x, count, yOff), LumelOffset(sc.tw, x, yOff) + 4 * j)
         == Stored(LumelColour(sc, buf, x + j as real, yOff))
    decreases count
  {
    if j == 0 {
      assert x + 0 as real == x;
      PaintRunStoresFirst(sc, buf, x, count, yOff);
    } else {
      var x' := x + 1.0;
      RowLumelOffset(sc.tw, x, 1, yOff);
      assert x + 1 as real == x';
      PaintRunStores(sc, PaintLumel(sc, buf, x, yOff), x', count - 1, yOff, j - 1);
      assert x' + (j - 1) as real == x + j as real;
      LaterLumelUnaffected(sc, buf, x, yOff, j);
    }
  }

  // ---------------------------------------------------------------------
  // The loop over a mesh's faces
  // ---------------------------------------------------------------------

  /**
   * The inputs of `lightMapGenerationPerLumel` the loop reads: the face
   * count, each face's lightmap UVs, the packed layout, each face's shader,
   * the layout mode, the texture size and the seam tolerance `uvSmoothing`.
   */
  datatype Bake = Bake(faceCount: nat, uvs: seq<seq<Vec2>>, uvInfo: seq<UvInfo>, shaderOf: nat -> Shader,
                       mode: UvMethod, tw: nat, th: nat, smoothing: real)

  /** `ny = Math.ceil(Math.sqrt(faces.length))`: the side of the uniform grid. */
  function RowCells(bk: Bake): nat
  {
    GridSize(bk.faceCount)
  }

  /** `offset = th / ny`, the side of a grid cell in texels (only the centred layout uses it, and only with faces). */
  function CellSide(bk: Bake): real
  {
    if RowCells(bk) == 0 then 0.0 else bk.th as real / RowCells(bk) as real
  }

  /** Face `i`'s texel triangle: `get2dVecs` of its lightmap UVs. */
  function TexelTriangle(bk: Bake, i: nat): seq<Vec2>
    requires i < |bk.uvs|
  {
    Get2dVecs(bk.uvs[i], bk.tw as real, bk.th as real)
  }

  /** Face `i` has a UV triple and `calcFaceOffset` is defined for it. */
  predicate FaceReady(bk: Bake, i: nat)
  {
    i < |bk.uvs| && |bk.uvs[i]| == 3 &&
    FaceOffsetDefined(bk.mode, i, RowCells(bk), bk.uvInfo, TexelTriangle(bk, i))
  }

  /** The rectangle face `i` scans. */
  function FaceScanRect(bk: Bake, i: nat): FaceRect
    requires FaceReady(bk, i)
  {
    CalcFaceOffset(bk.mode, i, RowCells(bk), CellSide(bk), bk.uvInfo, bk.tw as real, bk.th as real, TexelTriangle(bk, i))
  }

  /** The scan of face `i`. */
  function FaceScan(bk: Bake, i: nat): Scan
    requires FaceReady(bk, i)
  {
    var t := TexelTriangle(bk, i);
    TriangleScan(t[0], t[1], t[2], bk.smoothing, bk.shaderOf(i), bk.mode, bk.tw, bk.th)
  }

  /** Faces `i` to `end - 1`, scanned in order into one buffer. */
  function ScanFaces(bk: Bake, buf: seq<Byte>, i: nat, end: nat): (r: seq<Byte>)
    requires |buf| % 4 == 0 && forall k :: i <= k < end ==> FaceReady(bk, k)
    ensures |r| == |buf|
    decreases end - i
  {
    if i >= end then buf
    else
      var sc := FaceScan(bk, i);
      ScanFaces(bk, ScanRows(sc, buf, FaceScanRect(bk, i), FaceScanRect(bk, i).yBegin), i + 1, end)
  }

  /** One iteration of the face loop: the face's texel triangle, its rectangle, and the scan over it. */
  method BakeFace(bk: Bake, faceIndex: nat, buf8: array<Byte>)
    requires FaceReady(bk, faceIndex) && buf8.Length % 4 == 0
    modifies buf8
    ensures buf8[..] == ScanRows(FaceScan(bk, faceIndex), old(buf8[..]), FaceScanRect(bk, faceIndex), FaceScanRect(bk, faceIndex).yBegin)
  {
    var vec2d := Get2dVecs(bk.uvs[faceIndex], bk.tw as real, bk.th as real);
    var uvOffsets := CalcFaceOffset(bk.mode, faceIndex, RowCells(bk), CellSide(bk), bk.uvInfo, bk.tw as real, bk.th as real, vec2d);
    var sc := TriangleScan(vec2d[0], vec2d[1], vec2d[2], bk.smoothing, bk.shaderOf(faceIndex), bk.mode, bk.tw, bk.th);
    ScanFace(sc, uvOffsets, buf8);
  }

  /** The bytes of a `tw * th` RGBA texture. */
  function TextureBytes(tw: nat, th: nat): nat
  {
    tw * th * 4
  }

  /**
   * `lightMapGenerationPerLumel` without the flat-fast shading branch: a
   * fresh zeroed buffer of `tw * th * 4` bytes, every face from
   * `faceBegin` to `faceEnd - 1` scanned into it, and no result for a pass
   * below 1.
   */
  method LightMapGenerationPerLumel(bk: Bake, pass: int, faceBegin: nat, faceEnd: nat) returns (r: Option<array<Byte>>)
    requires forall k :: faceBegin <= k < faceEnd ==> FaceReady(bk, k)
    ensures r.None? <==> pass < 1
    ensures r.Some? ==> fresh(r.value) &&
                        r.value[..] == ScanFaces(bk, seq(TextureBytes(bk.tw, bk.th), _ => 0), faceBegin, faceEnd)
  {
    var buf8 := new Byte[TextureBytes(bk.tw, bk.th)](_ => 0);
    ghost var zero := buf8[..];
    assert zero == seq(TextureBytes(bk.tw, bk.th), _ => 0);
    if pass < 1 {
      return None;
    }
    var faceIndex := faceBegin;
    while faceIndex < faceEnd
      invariant faceBegin <= faceIndex || faceEnd <= faceBegin
      invariant buf8.Length % 4 == 0
      invariant ScanFaces(bk, buf8[..], faceIndex, faceEnd) == ScanFaces(bk, zero, faceBegin, faceEnd)
      decreases faceEnd - faceIndex
    {
      assert FaceReady(bk, faceIndex);
      BakeFace(bk, faceIndex, buf8);
      faceIndex := faceIndex + 1;
    }
    return Some(buf8);
  }

  // ---------------------------------------------------------------------
  // Texel 0 is never written
  // ---------------------------------------------------------------------

  lemma {:induction false} ScanRowKeepsTexelZero(sc: Scan, buf: seq<Byte>, x: real, xEnd: real, yOff: real, acc: bool, i: nat)
    requires |buf| % 4 == 0 && i < 4 && i < |buf|
    ensures ScanRow(sc, buf, x, xEnd, yOff, acc)[i] == buf[i]
    decreases Steps(x, xEnd)
  {
    if x < xEnd {
      StepsDecrease(x, xEnd);
      if Inside(sc, x, yOff) {
        SetLumelFrame(buf, LumelOffset(sc.tw, x, yOff), LumelColour(sc, buf, x, yOff), i);
        ScanRowKeepsTexelZero(sc, PaintLumel(sc, buf, x, yOff), x + 1.0, xEnd, yOff, true, i);
      } else if !acc {
        ScanRowKeepsTexelZero(sc, buf, x + 1.0, xEnd, yOff, false, i);
      }
    }
  }

  lemma {:induction false} ScanRowsKeepTexelZero(sc: Scan, buf: seq<Byte>, rect: FaceRect, y: real, i: nat)
    requires |buf| % 4 == 0 && i < 4 && i < |buf|
    ensures ScanRows(sc, buf, rect, y)[i] == buf[i]
    decreases Steps(y, rect.yEnd)
  {
    if y < rect.yEnd {
      StepsDecrease(y, rect.yEnd);
      var yOff := CalcYOffset(sc.mode, sc.th as real, y);
      ScanRowKeepsTexelZero(sc, buf, rect.xBegin, rect.xEnd, yOff, false, i);
      ScanRowsKeepTexelZero(sc, ScanRow(sc, buf, rect.xBegin, rect.xEnd, yOff, false), rect, y + 1.0, i);
    }
  }

  /**
   * No face ever writes texel 0: `setLumelColor` stores only at offsets
   * above 0, so the first texel of every baked lightmap keeps its bytes.
   */
  lemma {:induction false} ScanFacesKeepTexelZero(bk: Bake, buf: seq<Byte>, b: nat, e: nat, i: nat)
    requires |buf| % 4 == 0 && (forall k :: b <= k < e ==> FaceReady(bk, k)) && i < 4 && i < |buf|
    ensures ScanFaces(bk, buf, b, e)[i] == buf[i]
    decreases e - b
  {
    if b < e {
      var rect := FaceScanRect(bk, b);
      ScanRowsKeepTexelZero(FaceScan(bk, b), buf, rect, rect.yBegin, i);
      ScanFacesKeepTexelZero(bk, ScanRows(FaceScan(bk, b), buf, rect, rect.yBegin), b + 1, e, i);
    }
  }
}
