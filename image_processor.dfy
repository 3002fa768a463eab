/**
  The contrast stretch inside `enhanceImage` (src/utils/imageProcessor.js): a
  loop over the RGBA bytes of an ImageData buffer, four bytes per pixel, that
  pushes R, G and B away from mid-grey by a factor 1.3 and leaves alpha alone.
  The buffer is a Uint8ClampedArray, so every store goes through ToUint8Clamp
  (section 7.1.12 of ECMA-262): clamp to 0..255, then round half to even.
 */
module ImageProcessor {

  /** One element of a Uint8ClampedArray. */
  type Byte = x: int | 0 <= x <= 255

  /** The contrast factor, 1.3, taken as the exact rational 13/10. */
  const ContrastFactor: real := 1.3

  /** ECMAScript ToUint8Clamp of a (finite) number. */
  function ToUint8Clamp(x: real): (r: int)
    ensures 0 <= r <= 255
    ensures x <= 0.0 ==> r == 0
    ensures x >= 255.0 ==> r == 255
    ensures 0.0 < x < 255.0 ==> x - 0.5 <= r as real <= x + 0.5
    ensures 0.0 < x < 255.0 && x == x.Floor as real + 0.5 ==> r % 2 == 0
  {
    if x <= 0.0 then 0
    else if x >= 255.0 then 255
    else
      var f := x.Floor;
      if (f as real) + 0.5 < x then f + 1
      else if x < (f as real) + 0.5 then f
      else if f % 2 == 1 then f + 1
      else f
  }

  /**
    The value the loop stores for one R, G or B byte v: `(v - 128) * 1.3 + 128`,
    clamped. It moves every channel away from mid-grey, never towards it.
   */
  function Contrast(v: Byte): (r: Byte)
    ensures v >= 128 ==> r >= v
    ensures v <= 128 ==> r <= v
  {
    var x := (v - 128) as real * ContrastFactor + 128.0;
    var lo := if v >= 128 then v as real else x;
    var hi := if v >= 128 then x else v as real;
    ClampOfByte(v);
    ClampMonotone(lo, hi);
    ToUint8Clamp(x)
  }

  /** The whole buffer after the loop: R, G and B bytes stretched, every fourth (alpha) byte kept. */
  function Enhanced(s: seq<Byte>): (t: seq<Byte>)
    ensures |t| == |s|
    ensures forall k :: 0 <= k < |s| && k % 4 == 3 ==> t[k] == s[k]
    ensures forall k :: 0 <= k < |s| && k % 4 != 3 ==> t[k] == Contrast(s[k])
  {
    seq(|s|, k requires 0 <= k < |s| => if k % 4 == 3 then s[k] else Contrast(s[k]))
  }

  /**
    The loop itself, in place. `i` steps by 4 and the bytes at i, i+1 and i+2
    are rewritten; a store past the end of a typed array is ignored, which is
    what the guards on i+1 and i+2 stand for when the length is not a multiple of 4.
   */
  method EnhanceContrast(data: array<Byte>)
    modifies data
    ensures data[..] == Enhanced(old(data[..]))
  {
    var i := 0;
    while i < data.Length
      invariant 0 <= i && i % 4 == 0
      invariant forall k :: 0 <= k < data.Length && k < i ==>
                  data[k] == if k % 4 == 3 then old(data[k]) else Contrast(old(data[k]))
      invariant forall k :: i <= k < data.Length ==> data[k] == old(data[k])
    {
      PixelOffsets(i);
      data[i] := Contrast(data[i]);
      if i + 1 < data.Length {
        data[i + 1] := Contrast(data[i + 1]);
      }
      if i + 2 < data.Length {
        data[i + 2] := Contrast(data[i + 2]);
      }
      i := i + 4;
    }
  }

  /** Within the pixel that starts at i, a byte's offset from i is its channel. */
  lemma PixelOffsets(i: int)
    requires 0 <= i && i % 4 == 0
    ensures (i + 1) % 4 == 1 && (i + 2) % 4 == 2 && (i + 3) % 4 == 3 && (i + 4) % 4 == 0
  {
  }

  /** ToUint8Clamp keeps a byte that is already an integer in range. */
  lemma ClampOfByte(n: int)
    requires 0 <= n <= 255
    ensures ToUint8Clamp(n as real) == n
  {
    if 0 < n < 255 {
      assert (n as real).Floor == n;
    }
  }

  /** ToUint8Clamp is monotone: a larger number never clamps to a smaller byte. */
  lemma ClampMonotone(x: real, y: real)
    requires x <= y
    ensures ToUint8Clamp(x) <= ToUint8Clamp(y)
  {
    if 0.0 < x && y < 255.0 {
      var fx, fy := x.Floor, y.Floor;
      assert fx <= fy;
      if fx < fy {
        assert ToUint8Clamp(x) <= fx + 1;
        assert fy <= ToUint8Clamp(y);
      }
    }
  }

  /** Mid-grey is a fixed point. */
  lemma MidGreyFixed()
    ensures Contrast(128) == 128
  {
    ClampOfByte(128);
  }

  /** The channel map is monotone. */
  lemma ContrastMonotone(v: Byte, w: Byte)
    requires v <= w
    ensures Contrast(v) <= Contrast(w)
  {
    ClampMonotone((v - 128) as real * ContrastFactor + 128.0, (w - 128) as real * ContrastFactor + 128.0);
  }

  /** Contrast never decreases: every channel ends at least as far from 128 as it started, on the same side. */
  lemma ContrastExpands(v: Byte)
    ensures v >= 128 ==> Contrast(v) >= v
    ensures v <= 128 ==> Contrast(v) <= v
    ensures (if Contrast(v) >= 128 then Contrast(v) - 128 else 128 - Contrast(v))
         >= (if v >= 128 then v - 128 else 128 - v)
  {
    var x := (v - 128) as real * ContrastFactor + 128.0;
    ClampOfByte(v);
    if v >= 128 {
      ClampMonotone(v as real, x);
    } else {
      ClampMonotone(x, v as real);
    }
  }

  /** Exactly the channels 30..225 stay strictly inside the byte range; darker ones go to 0, lighter ones to 255. */
  lemma ContrastSaturation(v: Byte)
    ensures v <= 29 ==> Contrast(v) == 0
    ensures v >= 226 ==> Contrast(v) == 255
    ensures 30 <= v <= 225 ==> 0 < Contrast(v) < 255
  {
  }

  /**
    An integer reference for the channel map: with n = 13v - 384 the stored
    value is n/10 clamped to 0..255 and rounded half to even.
   */
  function ContrastByDigits(v: Byte): (r: int)
  {
    var n := 13 * v - 384;
    if n <= 0 then 0
    else if n >= 2550 then 255
    else
      var q, d := n / 10, n % 10;
      if d > 5 || (d == 5 && q % 2 == 1) then q + 1 else q
  }

  /** The real-number definition and the integer reference agree on every byte. */
  lemma ContrastMatchesDigits(v: Byte)
    ensures Contrast(v) == ContrastByDigits(v)
  {
    var n := 13 * v - 384;
    var x := (v - 128) as real * ContrastFactor + 128.0;
    assert x == n as real / 10.0;
    if 0 < n < 2550 {
      var q, d := n / 10, n % 10;
      assert n == 10 * q + d && 0 <= d < 10;
      assert x == q as real + d as real / 10.0;
      assert x.Floor == q;
    }
  }

  /** Stretching is not idempotent: a second pass moves a non-neutral pixel further. */
  lemma ContrastTwiceDiffers()
    ensures Contrast(200) == 222
    ensures Contrast(Contrast(200)) == 250
  {
    ContrastMatchesDigits(200);
    ContrastMatchesDigits(222);
  }

  /**
    Pixel view of the loop on a buffer of whole pixels: pixel p's bytes
    4p, 4p+1 and 4p+2 are each stretched once and its alpha byte 4p+3 is kept.
   */
  lemma EnhancedPixel(s: seq<Byte>, p: nat)
    requires |s| % 4 == 0 && p < |s| / 4
    ensures 4 * p + 3 < |s|
    ensures Enhanced(s)[4 * p] == Contrast(s[4 * p])
    ensures Enhanced(s)[4 * p + 1] == Contrast(s[4 * p + 1])
    ensures Enhanced(s)[4 * p + 2] == Contrast(s[4 * p + 2])
    ensures Enhanced(s)[4 * p + 3] == s[4 * p + 3]
  {
    assert (4 * p) % 4 == 0 && (4 * p + 1) % 4 == 1 && (4 * p + 2) % 4 == 2 && (4 * p + 3) % 4 == 3;
  }
}
