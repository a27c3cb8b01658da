/**
 * The storage layout of a packed complex array: one flat buffer of `2 * n`
 * doubles in which element `i` keeps its real part at slot `2 * i` and its
 * imaginary part at slot `2 * i + 1`. Also the 32-bit Java `int` arithmetic
 * the layout is computed with (`length * 2`, `i << 1`).
 */
module PackedLayout {
  import opened ComplexNumbers

  const MinInt32: int := -0x8000_0000
  const MaxInt32: int := 0x7FFF_FFFF

  /** A Java `int`. */
  type Int32 = x: int | MinInt32 <= x <= MaxInt32

  /** The largest element count whose buffer size `2 * n` is still a non-negative Java `int`. */
  const MaxLength: int := 0x3FFF_FFFF

  /** Two's-complement wrap-around of an exact integer into a Java `int`. */
  function WrapInt32(x: int): (r: Int32)
    ensures (r - x) % 0x1_0000_0000 == 0
    ensures MinInt32 <= x <= MaxInt32 ==> r == x
  {
    (x - MinInt32) % 0x1_0000_0000 + MinInt32
  }

  /**
   * The buffer index of element `i`, computed as the source does with `i << 1`
   * on a Java `int`; for every element of an array that could be allocated the
   * shift does not overflow and is the real part's slot `2 * i`.
   */
  function SlotOf(i: int): (idx: int)
    requires 0 <= i <= MaxLength
    ensures idx == 2 * i
  {
    WrapInt32(i * 2)
  }

  /**
   * The shift wraps for negative indices: an index `MinInt32 + k`, with `k` an
   * element of an array that can be allocated, gives the slot `2 * k` of
   * element `k`, so such an index reaches element `k` without any bounds error.
   */
  lemma SlotOfWrapsNegative(k: int)
    requires 0 <= k <= MaxLength
    ensures WrapInt32((MinInt32 + k) * 2) == 2 * k
  {
  }

  /** Reads a buffer of even length as the sequence of complex numbers it packs. */
  function Unpack(s: seq<real>): (xs: seq<Complex>)
    requires |s| % 2 == 0
    ensures |xs| * 2 == |s|
    ensures forall i :: 0 <= i < |xs| ==> xs[i] == Complex(s[2 * i], s[2 * i + 1])
    decreases |s|
  {
    if s == [] then [] else [Complex(s[0], s[1])] + Unpack(s[2..])
  }

  /** Lays a sequence of complex numbers out in one flat buffer. */
  function Pack(xs: seq<Complex>): (s: seq<real>)
    ensures |s| == 2 * |xs|
    ensures forall i :: 0 <= i < |xs| ==> s[2 * i] == xs[i].re && s[2 * i + 1] == xs[i].im
  {
    if xs == [] then [] else [xs[0].re, xs[0].im] + Pack(xs[1..])
  }

  /** Packing then unpacking gives back the elements. */
  lemma UnpackPack(xs: seq<Complex>)
    ensures Unpack(Pack(xs)) == xs
  {
  }

  /** Unpacking then packing gives back the buffer: every slot belongs to exactly one element. */
  lemma {:induction false} PackUnpack(s: seq<real>)
    requires |s| % 2 == 0
    ensures Pack(Unpack(s)) == s
    decreases |s|
  {
    if s != [] {
      var xs := Unpack(s);
      assert xs == [Complex(s[0], s[1])] + Unpack(s[2..]);
      assert xs[1..] == Unpack(s[2..]);
      PackUnpack(s[2..]);
      assert s == [s[0], s[1]] + s[2..];
    }
  }

  /**
   * Overwriting the two slots of element `i` replaces element `i` and no other:
   * the whole-element store of the packed array.
   */
  lemma UnpackStore(s: seq<real>, i: int, c: Complex)
    requires |s| % 2 == 0 && 0 <= i < |s| / 2
    ensures Unpack(s[2 * i := c.re][2 * i + 1 := c.im]) == Unpack(s)[i := c]
  {
  }

  /**
   * Overwriting only the real slot of element `i` replaces its real part and
   * keeps its imaginary part and every other element.
   */
  lemma UnpackStoreReal(s: seq<real>, i: int, re: real)
    requires |s| % 2 == 0 && 0 <= i < |s| / 2
    ensures Unpack(s[2 * i := re]) == Unpack(s)[i := Complex(re, Unpack(s)[i].im)]
  {
  }

  /** A zero-filled buffer of `2 * n` slots holds `n` zeros. */
  lemma UnpackZeros(n: nat)
    ensures Unpack(seq(2 * n, _ => 0.0)) == seq(n, _ => Zero)
  {
  }
}
