/**
  The debug test pattern: an 8 x 8 RGBA image whose row y is a 32-byte
  palette of eight pixels rotated right by y pixels, with every byte of the
  palette divided by a darkness factor first.
*/
module Textures {
  import opened Wrappers

  /** An unsigned 8-bit integer. */
  newtype byte = x: int | 0 <= x < 256

  /** The width and height of the texture, in pixels. */
  const TextureSize: nat := 8

  /** Bytes per RGBA pixel. */
  const PixelBytes: nat := 4

  /** Bytes per row: eight RGBA pixels. */
  const RowBytes: nat := 32

  /** The eight RGBA colours of the pattern, as 32 bytes. */
  const BasePalette: seq<byte> := [
    255, 102, 159, 255, 255, 159, 102, 255, 236, 255, 102, 255, 121, 255, 102, 255,
    102, 255, 198, 255, 102, 198, 255, 255, 121, 102, 255, 255, 236, 102, 255, 255]

  /** `palette.map(|c| c / darkness)`: u8 division, which panics on a zero divisor. */
  function ScaledPalette(darkness: byte): (r: Option<seq<byte>>)
    ensures darkness == 0 <==> r.None?
    ensures r.Some? ==> |r.value| == RowBytes
    ensures r.Some? ==> forall i :: 0 <= i < RowBytes ==> r.value[i] as int == BasePalette[i] as int / darkness as int
  {
    if darkness == 0 then None
    else Some(seq(RowBytes, i requires 0 <= i < RowBytes => BasePalette[i] / darkness))
  }

  /** `rotate_right(k)`: the last k elements move to the front. */
  function RotateRight<T>(s: seq<T>, k: nat): (r: seq<T>)
    requires k <= |s|
    ensures |r| == |s|
    ensures forall i :: 0 <= i < k ==> r[i] == s[|s| - k + i]
    ensures forall i :: k <= i < |s| ==> r[i] == s[i - k]
  {
    s[|s| - k..] + s[..|s| - k]
  }

  /** The palette after n rotations by one pixel. */
  function Rotated(p: seq<byte>, n: nat): (r: seq<byte>)
    requires |p| == RowBytes
    ensures |r| == RowBytes
  {
    if n == 0 then p else RotateRight(Rotated(p, n - 1), PixelBytes)
  }

  /** The first n rows of the pattern, built from palette p. */
  function Rows(p: seq<byte>, n: nat): (r: seq<byte>)
    requires |p| == RowBytes
    ensures |r| == n * RowBytes
  {
    if n == 0 then [] else Rows(p, n - 1) + Rotated(p, n - 1)
  }

  /** The 256 bytes `uv_debug_texture` fills the image with, or None when it panics. */
  function TextureData(darkness: byte): Option<seq<byte>> {
    match ScaledPalette(darkness)
    case None => None
    case Some(p) => Some(Rows(p, TextureSize))
  }

  // ---------------------------------------------------------------- lemmas

  /** Adding a whole row does not change a position modulo the row. */
  lemma ModRow(a: int)
    ensures (a + 32) % 32 == a % 32
  {
  }

  /** n rotations by one pixel are one rotation by n pixels, modulo the row. */
  lemma {:induction false} RotatedIndex(p: seq<byte>, n: nat, i: int)
    requires |p| == RowBytes && 0 <= i < RowBytes
    ensures Rotated(p, n)[i] == p[(i - 4 * n) % 32]
  {
    if n == 0 {
      assert i % 32 == i;
    } else if i < 4 {
      RotatedIndex(p, n - 1, i + 28);
      ModRow(i - 4 * n);
    } else {
      RotatedIndex(p, n - 1, i - 4);
    }
  }

  /** Row y of the first n rows is the palette rotated by y pixels. */
  lemma {:induction false} RowsRow(p: seq<byte>, n: nat, y: nat)
    requires |p| == RowBytes && y < n
    ensures Rows(p, n)[y * RowBytes..(y + 1) * RowBytes] == Rotated(p, y)
  {
    if y < n - 1 {
      RowsRow(p, n - 1, y);
      assert Rows(p, n)[..(n - 1) * RowBytes] == Rows(p, n - 1);
    } else {
      assert y * RowBytes == |Rows(p, n - 1)|;
    }
  }

  /**
    The pattern holds exactly 8 * 8 * 4 bytes; row y occupies bytes
    [32 y, 32 y + 32) and is the scaled palette rotated right by 4 y bytes,
    so row 0 is the scaled palette itself.
  */
  lemma TexturePattern(darkness: byte, y: nat)
    requires darkness != 0 && y < TextureSize
    ensures TextureData(darkness).Some?
    ensures |TextureData(darkness).value| == TextureSize * TextureSize * PixelBytes == 256
    ensures TextureData(darkness).value[y * RowBytes..(y + 1) * RowBytes] ==
            Rotated(ScaledPalette(darkness).value, y)
    ensures TextureData(darkness).value[..RowBytes] == ScaledPalette(darkness).value
  {
    var p := ScaledPalette(darkness).value;
    RowsRow(p, TextureSize, y);
    RowsRow(p, TextureSize, 0);
  }

  /**
    The row slices [32 y, 32 y + 32) for y < 8 partition the 256 bytes: each
    byte lies in the slice of row i / 32 and in no other, so the fill writes
    every byte exactly once.
  */
  lemma RowSlicesPartition(i: int, y: int)
    requires 0 <= i < TextureSize * TextureSize * PixelBytes
    ensures 0 <= i / RowBytes < TextureSize
    ensures (i / RowBytes) * RowBytes <= i < (i / RowBytes + 1) * RowBytes
    ensures y * RowBytes <= i < (y + 1) * RowBytes ==> y == i / RowBytes
  {
  }

  /**
    Every row keeps the eight RGBA pixels whole: channel ch of pixel x in row
    y is channel ch of palette pixel (x - y) mod 8.
  */
  lemma PixelsIntact(p: seq<byte>, y: nat, x: int, ch: int)
    requires |p| == RowBytes && 0 <= x < TextureSize && 0 <= ch < PixelBytes
    ensures Rotated(p, y)[x * PixelBytes + ch] == p[((x - y) % 8) * PixelBytes + ch]
  {
    RotatedIndex(p, y, x * 4 + ch);
    PixelMod(x - y, ch);
  }

  /** A position 4 a + ch with ch a channel wraps around the row pixel by pixel. */
  lemma PixelMod(a: int, ch: int)
    requires 0 <= ch < 4
    ensures (4 * a + ch) % 32 == (a % 8) * 4 + ch
  {
    var q := a / 8;
    assert a == 8 * q + a % 8;
    assert 4 * a + ch == 32 * q + ((a % 8) * 4 + ch);
  }

  /** With darkness 1 the palette is the base palette; a darker factor never brightens a byte. */
  lemma ScaledPaletteBounds(darkness: byte)
    requires darkness != 0
    ensures darkness == 1 ==> ScaledPalette(darkness).value == BasePalette
    ensures forall i :: 0 <= i < RowBytes ==> ScaledPalette(darkness).value[i] <= BasePalette[i]
  {
    forall i | 0 <= i < RowBytes
      ensures ScaledPalette(darkness).value[i] <= BasePalette[i]
    {
      DivNotLarger(BasePalette[i] as int, darkness as int);
    }
  }

  /** Dividing a natural number by a positive one never makes it larger. */
  lemma DivNotLarger(c: int, d: int)
    requires 0 <= c && 1 <= d
    ensures c / d <= c
  {
    var q := c / d;
    assert q * d <= c;
    assert q <= q * d by { MulMonotone(q, d); }
  }

  lemma MulMonotone(q: int, d: int)
    requires 0 <= q && 1 <= d
    ensures q <= q * d
  {
    assert q * d == q + q * (d - 1);
  }

  lemma PrefixOfConcat<T>(a: seq<T>, b: seq<T>, c: seq<T>)
    ensures (a + b + c)[..|a| + |b|] == a + b
  {
    assert (a + b + c) == (a + b) + c;
  }

  // ---------------------------------------------------------------- the fill

  /** `dst[offset..offset + |src|].copy_from_slice(src)`. */
  method CopyIntoSlice(dst: array<byte>, offset: nat, src: array<byte>)
    requires offset + src.Length <= dst.Length && dst != src
    modifies dst
    ensures dst[..] == old(dst[..offset]) + src[..] + old(dst[offset + src.Length..])
  {
    for k := 0 to src.Length
      invariant dst[..] == old(dst[..offset]) + src[..k] + old(dst[offset + k..])
    {
      dst[offset + k] := src[k];
    }
  }

  /** `palette.rotate_right(k)` on the array itself. */
  method RotateRightInPlace(a: array<byte>, k: nat)
    requires k <= a.Length
    modifies a
    ensures a[..] == RotateRight(old(a[..]), k)
  {
    var s := a[..];
    for i := 0 to a.Length
      invariant a[..i] == RotateRight(s, k)[..i]
      invariant a[i..] == s[i..]
    {
      a[i] := RotateRight(s, k)[i];
    }
  }

  /**
    The loop of `uv_debug_texture`: the texture bytes, filled row by row from
    `scaled`, which is rotated right by one pixel after each row.
  */
  method FillTexture(scaled: seq<byte>) returns (texture: array<byte>)
    requires |scaled| == RowBytes
    ensures fresh(texture) && texture.Length == TextureSize * TextureSize * PixelBytes
    ensures texture[..] == Rows(scaled, TextureSize)
  {
    var palette := new byte[RowBytes](i requires 0 <= i < RowBytes => scaled[i]);
    texture := new byte[TextureSize * TextureSize * PixelBytes](_ => 0);
    for y := 0 to TextureSize
      invariant palette[..] == Rotated(scaled, y)
      invariant texture[..y * RowBytes] == Rows(scaled, y)
    {
      var offset := TextureSize * y * PixelBytes;
      assert offset == y * RowBytes && offset + RowBytes == (y + 1) * RowBytes;
      ghost var before := texture[..];
      CopyIntoSlice(texture, offset, palette);
      PrefixOfConcat(before[..offset], palette[..], before[offset + RowBytes..]);
      RotateRightInPlace(palette, PixelBytes);
    }
    assert texture[..] == texture[..TextureSize * RowBytes];
  }

  /**
    `uv_debug_texture(darkness)`: the scaled palette, then the fill; None
    when the division by `darkness` panics.
  */
  method UvDebugTexture(darkness: byte) returns (data: Option<array<byte>>)
    ensures data.None? <==> darkness == 0
    ensures data.Some? ==> fresh(data.value) && data.value.Length == TextureSize * TextureSize * PixelBytes
    ensures data.Some? ==> TextureData(darkness).Some? && data.value[..] == TextureData(darkness).value
  {
    if darkness == 0 {
      return None;
    }
    var texture := FillTexture(ScaledPalette(darkness).value);
    data := Some(texture);
  }
}
