/**
 * Value types shared by the lightmap-baking model.
 *
 * JavaScript numbers are modelled as mathematical `real`s (the exact
 * arithmetic of the kernel, without rounding) or as `int`s where the
 * source only ever produces integers.
 */
module Common {

  /** `undefined` versus a present value. */
  datatype Option<T> = None | Some(value: T)

  /** One element of a `Uint8Array`. */
  type Byte = x: int | 0 <= x < 256

  /** A `THREE.Color`: three unclamped real channels. */
  datatype Rgb = Rgb(r: real, g: real, b: real)

  const Black: Rgb := Rgb(0.0, 0.0, 0.0)

  /** A texel colour as stored in a lightmap: three 8-bit channels. */
  datatype Rgb8 = Rgb8(r: Byte, g: Byte, b: Byte)

  const Black8: Rgb8 := Rgb8(0, 0, 0)

  /** A point or direction in 3D (`THREE.Vector3` or a 3-element array). */
  datatype Vec3 = Vec3(x: real, y: real, z: real)

  /** A point in texel or UV space (`THREE.Vector2` or a 2-element array). */
  datatype Vec2 = Vec2(x: real, y: real)

  function Min(a: real, b: real): real { if a <= b then a else b }

  function Max(a: real, b: real): real { if a >= b then a else b }

  /** A positive multiple of `d` is at least `d`. */
  lemma {:induction false} MultipleAtLeast(d: int, m: int)
    requires d > 0 && m >= 1
    ensures d * m >= d
  {
    assert d * m == d + d * (m - 1);
  }

  /** Division with remainder has one answer. */
  lemma {:induction false} DivModUnique(n: int, d: int, q: int, r: int)
    requires d > 0 && 0 <= r < d && n == q * d + r
    ensures n / d == q && n % d == r
  {
    var q', r' := n / d, n % d;
    assert d * (q - q') == r' - r;
    if q > q' {
      MultipleAtLeast(d, q - q');
    } else if q < q' {
      MultipleAtLeast(d, q' - q);
    }
  }
}
