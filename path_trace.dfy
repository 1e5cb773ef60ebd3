/**
 * The recursion skeleton of the path tracer: `rendererCalculateLumelColor`
 * follows one ray bounce by bounce up to `pathTracingRecLevel`, and
 * `calculateLumelColor` averages a number of such paths into a lumel.
 *
 * Everything that shoots rays, samples directions or shades a surface is an
 * oracle: the scene's intersection backend, the shadow rays of the direct
 * light, the surface colour lookups, the random bounce directions and the
 * Lambert factor of the indirect light.
 */
module PathTrace {
  import opened Common
  import opened Geometry
  import opened Texels

  /** A ray to follow: where it starts and on which face; its direction is part of it. */
  datatype Probe = Probe(origin: Vec3, faceIndex: int, objectId: int)

  datatype Oracle = Oracle(
    /** `raycasterFun.intersectObjects` for the probe's ray. */
    hits: Probe -> seq<Hit>,
    /** `getDirectColor` at the probe's origin. */
    direct: Probe -> Rgb,
    /** `getSurfaceTextureColor` or `getSurfaceColor` of the surface a ray hit. */
    surface: Hit -> Rgb,
    /** The next ray from a hit: the new local point and `generateRayDirection`. */
    bounce: Hit -> Probe,
    /**
     * `icolIntensity`: `getLambertIndirectL(faceNormal, ci.point, origin)`
     * for the probe's face and the hit, times `giIntensity`.
     */
    intensity: (Probe, Hit) -> real)

  /** `numLevels` against `pathTracingRecLevel`: the measure of the recursion. */
  function Level(recLevel: int, numLevels: int): nat
  {
    if numLevels > recLevel then 0 else recLevel + 1 - numLevels
  }

  /** `icol` after the `(icol.r + icol.g + icol.b) > 0` step: scaled and clipped to [0, 1]. */
  function WeightIndirect(icol: Rgb, intensity: real): (r: Rgb)
    ensures icol.r + icol.g + icol.b > 0.0 ==> ChannelsIn(r, 0.0, 1.0)
    ensures icol.r + icol.g + icol.b <= 0.0 ==> r == icol
  {
    if icol.r + icol.g + icol.b > 0.0 then ColorClip(ColorScale(icol, intensity), 0.0, 1.0) else icol
  }

  /**
   * The colour a segment returns once its recursive call has produced
   * `icol`: the direct light plus the weighted indirect light, tinted by the
   * colour `scol` of the surface the ray left from on every segment but the
   * first.
   */
  function Shade(numLevels: int, scol: Rgb, dcol: Rgb, intensity: real, icol: Rgb): Rgb
  {
    var icol' := WeightIndirect(icol, intensity);
    if numLevels == 0 then ColorAdd(dcol, icol') else ColorMultiply(scol, ColorAdd(dcol, icol'))
  }

  /**
   * `rendererCalculateLumelColor(…, numLevels, _ci)` under
   * `pathTracingRecLevel == recLevel`: the colour carried back along the ray
   * of `probe`; `prev` is the hit the ray left from, absent on the first
   * segment.
   */
  function Render(or: Oracle, recLevel: int, probe: Probe, numLevels: int, prev: Option<Hit>): Rgb
    requires numLevels != 0 ==> prev.Some?
    decreases Level(recLevel, numLevels)
  {
    if numLevels > recLevel then Black
    else
      var dcol := or.direct(probe);
      var hits := or.hits(probe);
      if |hits| == 0 then dcol
      else
        var ci := ClosestIntersection(hits).value;
        var scol := if numLevels != 0 then or.surface(prev.value) else Black;
        var icol := if numLevels < recLevel then Render(or, recLevel, or.bounce(ci), numLevels + 1, Some(ci)) else Black;
        Shade(numLevels, scol, dcol, or.intensity(probe, ci), icol)
  }

  /** The rays a call of `Render` traces: its own and those of its recursive call. */
  function RaysTraced(or: Oracle, recLevel: int, probe: Probe, numLevels: int): nat
    decreases Level(recLevel, numLevels)
  {
    if numLevels > recLevel then 0
    else
      var hits := or.hits(probe);
      if |hits| == 0 || numLevels >= recLevel then 1
      else 1 + RaysTraced(or, recLevel, or.bounce(ClosestIntersection(hits).value), numLevels + 1)
  }

  /** Past the recursion limit a path contributes black and traces nothing. */
  lemma BeyondLimitIsBlack(or: Oracle, recLevel: int, probe: Probe, numLevels: int, prev: Option<Hit>)
    requires numLevels > recLevel && (numLevels != 0 ==> prev.Some?)
    ensures Render(or, recLevel, probe, numLevels, prev) == Black
    ensures RaysTraced(or, recLevel, probe, numLevels) == 0
  {
  }

  /** The recursion only goes deeper while below the limit: at most `recLevel + 1 - numLevels` rays. */
  lemma {:induction false} RaysTracedBounded(or: Oracle, recLevel: int, probe: Probe, numLevels: int)
    requires numLevels <= recLevel
    ensures 1 <= RaysTraced(or, recLevel, probe, numLevels) <= recLevel + 1 - numLevels
    decreases Level(recLevel, numLevels)
  {
    var hits := or.hits(probe);
    if |hits| != 0 && numLevels < recLevel {
      RaysTracedBounded(or, recLevel, or.bounce(ClosestIntersection(hits).value), numLevels + 1);
    }
  }

  /** With a recursion limit of 0 the first segment returns the direct light alone. */
  lemma LimitZeroIsDirect(or: Oracle, probe: Probe)
    ensures Render(or, 0, probe, 0, None) == or.direct(probe)
  {
  }

  /**
   * At depth 0 the result is the direct light plus the weighted light of the
   * next segment; no surface colour multiplies it.
   */
  lemma FirstSegmentAddsIndirect(or: Oracle, recLevel: int, probe: Probe)
    requires 0 < recLevel && |or.hits(probe)| > 0
    ensures var ci := ClosestIntersection(or.hits(probe)).value;
            var icol := Render(or, recLevel, or.bounce(ci), 1, Some(ci));
            Render(or, recLevel, probe, 0, None) == ColorAdd(or.direct(probe), WeightIndirect(icol, or.intensity(probe, ci)))
  {
  }

  /**
   * Two oracles agree along the path of `probe`: on every segment up to the
   * limit they return the same hits, direct light, surface colour, weight
   * and next ray.
   */
  predicate SamePath(or: Oracle, or': Oracle, recLevel: int, probe: Probe, numLevels: int, prev: Option<Hit>)
    decreases Level(recLevel, numLevels)
  {
    numLevels > recLevel ||
    (or.direct(probe) == or'.direct(probe) && or.hits(probe) == or'.hits(probe) &&
     (numLevels != 0 && prev.Some? ==> or.surface(prev.value) == or'.surface(prev.value)) &&
     (|or.hits(probe)| > 0 ==>
        var ci := ClosestIntersection(or.hits(probe)).value;
        or.intensity(probe, ci) == or'.intensity(probe, ci) &&
        (numLevels < recLevel ==>
           or.bounce(ci) == or'.bounce(ci) && SamePath(or, or', recLevel, or.bounce(ci), numLevels + 1, Some(ci)))))
  }

  /** The colour depends only on the oracle along the first `recLevel + 1 - numLevels` segments. */
  lemma {:induction false} RenderDependsOnPathOnly(or: Oracle, or': Oracle, recLevel: int, probe: Probe, numLevels: int, prev: Option<Hit>)
    requires numLevels != 0 ==> prev.Some?
    requires SamePath(or, or', recLevel, probe, numLevels, prev)
    ensures Render(or, recLevel, probe, numLevels, prev) == Render(or', recLevel, probe, numLevels, prev)
    decreases Level(recLevel, numLevels)
  {
    if numLevels <= recLevel && |or.hits(probe)| > 0 && numLevels < recLevel {
      var ci := ClosestIntersection(or.hits(probe)).value;
      RenderDependsOnPathOnly(or, or', recLevel, or.bounce(ci), numLevels + 1, Some(ci));
    }
  }

  // ---------------------------------------------------------------------
  // calculateLumelColor
  // ---------------------------------------------------------------------

  /** `color` after `n` iterations of `color.add(rendererCalculateLumelColor(…, 0))`. */
  function SampleSum(start: Rgb, path: nat -> Rgb, n: nat): Rgb
  {
    if n == 0 then start else ColorAdd(SampleSum(start, path, n - 1), path(n - 1))
  }

  /** The colour of the path of sample `i`, traced from depth 0. */
  function SamplePaths(or: Oracle, recLevel: int, sampleRay: nat -> Probe): nat -> Rgb
  {
    (i: nat) => Render(or, recLevel, sampleRay(i), 0, None)
  }

  /** The iterations of `for (i = 0; i < samples; i++)`. */
  function SampleCount(samples: int): nat
  {
    if samples > 0 then samples else 0
  }

  /**
   * The colour `calculateLumelColor(color, …)` returns: the lumel's current
   * colour plus the paths of the samples, divided by `samples`.
   */
  function LumelSamples(or: Oracle, recLevel: int, color: Rgb, samples: int, sampleRay: nat -> Probe): Rgb
  {
    DivideScalar(SampleSum(color, SamplePaths(or, recLevel, sampleRay), SampleCount(samples)), samples as real)
  }

  /**
   * `calculateLumelColor(color, …)`: adds `samples` paths, the i-th starting
   * along `sampleRay(i)`, to the lumel's current colour and divides by
   * `samples`.
   */
  method CalculateLumelColor(or: Oracle, recLevel: int, color: Rgb, samples: int, sampleRay: nat -> Probe) returns (r: Rgb)
    ensures r == LumelSamples(or, recLevel, color, samples, sampleRay)
  {
    var intensity := samples;
    ghost var path := SamplePaths(or, recLevel, sampleRay);
    r := color;
    var i := 0;
    while i < samples
      invariant 0 <= i && (i <= samples || i == 0)
      invariant r == SampleSum(color, path, i)
    {
      r := ColorAdd(r, Render(or, recLevel, sampleRay(i), 0, None));
      assert path(i) == Render(or, recLevel, sampleRay(i), 0, None);
      i := i + 1;
    }
    assert i == SampleCount(samples);
    r := DivideScalar(r, intensity as real);
  }

  /**
   * The path-tracing shader of the scanline loop: at lumel (x, y) the
   * samples start along `sampleRays(x, y)`.
   */
  function PathTracedShader(or: Oracle, recLevel: int, samples: int, sampleRays: (real, real) -> (nat -> Probe)): Shader
  {
    PathShader((x: real, y: real, c: Rgb) => LumelSamples(or, recLevel, c, samples, sampleRays(x, y)))
  }

  lemma ScaleStep(c: Rgb, k: real)
    ensures ColorAdd(ColorScale(c, k), c) == ColorScale(c, k + 1.0)
  {
  }

  /** Adding `n` copies of one colour to `start`. */
  lemma {:induction false} SampleSumOfEqualPaths(start: Rgb, path: nat -> Rgb, n: nat, c: Rgb)
    requires forall i :: 0 <= i < n ==> path(i) == c
    ensures SampleSum(start, path, n) == ColorAdd(start, ColorScale(c, n as real))
  {
    if n > 0 {
      SampleSumOfEqualPaths(start, path, n - 1, c);
      ScaleStep(c, (n - 1) as real);
      assert ColorAdd(ColorAdd(start, ColorScale(c, (n - 1) as real)), c) == ColorAdd(start, ColorAdd(ColorScale(c, (n - 1) as real), c));
    }
  }

  lemma MeanOfCopies(v: real, n: real)
    requires n > 0.0
    ensures (v * n) * (1.0 / n) == v
  {
  }

  /** From a black start, the mean of `n` copies of a colour is that colour. */
  lemma MeanOfEqualPaths(path: nat -> Rgb, n: nat, c: Rgb)
    requires n > 0 && forall i :: 0 <= i < n ==> path(i) == c
    ensures DivideScalar(SampleSum(Black, path, n), n as real) == c
  {
    SampleSumOfEqualPaths(Black, path, n, c);
    var k := n as real;
    MeanOfCopies(c.r, k);
    MeanOfCopies(c.g, k);
    MeanOfCopies(c.b, k);
  }

  /**
   * The lumel is a mean: from a black start, `samples` paths of one colour
   * give that colour, and zero samples give black.
   */
  lemma LumelIsMeanOfPaths(or: Oracle, recLevel: int, samples: int, sampleRay: nat -> Probe, c: Rgb)
    requires forall i :: 0 <= i < samples ==> Render(or, recLevel, sampleRay(i), 0, None) == c
    ensures samples > 0 ==> LumelSamples(or, recLevel, Black, samples, sampleRay) == c
    ensures samples == 0 ==> LumelSamples(or, recLevel, Black, samples, sampleRay) == Black
  {
    if samples > 0 {
      var path := SamplePaths(or, recLevel, sampleRay);
      assert forall i :: 0 <= i < samples ==> path(i) == c;
      MeanOfEqualPaths(path, samples, c);
    }
  }
}
