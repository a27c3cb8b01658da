/**
 * `smile.math.Complex.Array`: a packed array of complex numbers kept in one
 * flat buffer of doubles, element `i` at slots `2 * i` (real part) and
 * `2 * i + 1` (imaginary part), updated in place.
 */
module ComplexArrays {
  import opened Wrappers
  import opened ComplexNumbers
  import opened PackedLayout

  /** The exceptions the constructor can raise. */
  datatype ArrayError =
    | IllegalArgument(length: int)   // "Negative array length: " + length
    | NegativeArraySize(size: int)   // the buffer size `length * 2` wrapped below zero

  /**
   * The checks performed when the constructor runs with `length`: a negative
   * length is rejected explicitly, and a length whose Java `int` doubling
   * wraps to a negative value makes the buffer allocation fail.
   */
  function CheckLength(length: Int32): (err: Option<ArrayError>)
    ensures err.None? <==> 0 <= length <= MaxLength
    ensures length < 0 ==> err == Some(IllegalArgument(length))
    ensures length > MaxLength ==> err == Some(NegativeArraySize(WrapInt32(length * 2)))
    ensures err.Some? && err.value.NegativeArraySize? ==> err.value.size < 0
  {
    if length < 0 then Some(IllegalArgument(length))
    else if WrapInt32(length * 2) < 0 then Some(NegativeArraySize(WrapInt32(length * 2)))
    else None
  }

  class Array {
    /** The number of complex elements; never changes. */
    const length: nat
    /** The packed buffer of `2 * length` doubles. */
    const data: array<real>

    ghost predicate Valid()
    {
      length <= MaxLength && data.Length == 2 * length
    }

    /** The elements the buffer holds, read through the packed layout. */
    ghost function Elements(): (xs: seq<Complex>)
      reads data
      requires Valid()
      ensures |xs| == length
    {
      Unpack(data[..])
    }

    /** An array of `length` elements, all zero, over a fresh buffer of `2 * length` slots. */
    constructor (length: nat)
      requires length <= MaxLength
      ensures Valid() && fresh(data)
      ensures this.length == length && data.Length == 2 * length
      ensures data[..] == seq(2 * length, _ => 0.0)
      ensures Elements() == seq(length, _ => Zero)
    {
      this.length := length;
      data := new real[WrapInt32(length * 2)](_ => 0.0);
      new;
      UnpackZeros(length);
    }

    /** The `i`-th element, read from slots `2 * i` and `2 * i + 1`. */
    function Get(i: int): (c: Complex)
      reads data
      requires Valid() && 0 <= i < length
      ensures c == Elements()[i]
      ensures c == Complex(data[2 * i], data[2 * i + 1])
    {
      var idx := SlotOf(i);
      Complex(data[idx], data[idx + 1])
    }

    /** The `i`-th element; an alias of `Get`. */
    function Apply(i: int): (c: Complex)
      reads data
      requires Valid() && 0 <= i < length
      ensures c == Elements()[i]
    {
      Get(i)
    }

    /** Stores `c` as the `i`-th element, writing slots `2 * i` and `2 * i + 1` only. */
    method Set(i: int, c: Complex)
      requires Valid() && 0 <= i < length
      modifies data
      ensures Valid()
      ensures data[..] == old(data[..])[2 * i := c.re][2 * i + 1 := c.im]
      ensures Elements() == old(Elements())[i := c]
      ensures Get(i) == c
      ensures forall j :: 0 <= j < length && j != i ==> Get(j) == old(Get(j))
    {
      var idx := SlotOf(i);
      data[idx] := c.re;
      data[idx + 1] := c.im;
      UnpackStore(old(data[..]), i, c);
    }

    /**
     * Stores `re` as the real part of the `i`-th element, writing slot `2 * i`
     * only: the imaginary part and every other element are kept.
     */
    method SetReal(i: int, re: real)
      requires Valid() && 0 <= i < length
      modifies data
      ensures Valid()
      ensures data[..] == old(data[..])[2 * i := re]
      ensures Elements() == old(Elements())[i := Complex(re, old(Elements())[i].im)]
      ensures Get(i) == Complex(re, old(Get(i)).im)
      ensures forall j :: 0 <= j < length && j != i ==> Get(j) == old(Get(j))
    {
      var idx := SlotOf(i);
      data[idx] := re;
      UnpackStoreReal(old(data[..]), i, re);
    }

    /** Stores `c` as the `i`-th element; an alias of `Set`. */
    method Update(i: int, c: Complex)
      requires Valid() && 0 <= i < length
      modifies data
      ensures Valid()
      ensures data[..] == old(data[..])[2 * i := c.re][2 * i + 1 := c.im]
      ensures Elements() == old(Elements())[i := c]
    {
      Set(i, c);
    }

    /** Stores `re` as the real part of the `i`-th element; an alias of `SetReal`. */
    method UpdateReal(i: int, re: real)
      requires Valid() && 0 <= i < length
      modifies data
      ensures Valid()
      ensures data[..] == old(data[..])[2 * i := re]
      ensures Elements() == old(Elements())[i := Complex(re, old(Elements())[i].im)]
    {
      SetReal(i, re);
    }

    /**
     * A packed array holding the elements of `x` in order. As in the source, it
     * fails like the constructor when `x` is too long for its buffer size to be
     * a Java `int`.
     */
    static method Of(x: seq<Complex>) returns (r: Result<Array, ArrayError>)
      requires |x| <= MaxInt32
      ensures r.Failure? <==> |x| > MaxLength
      ensures r.Failure? ==> r.error == NegativeArraySize(WrapInt32(|x| * 2))
      ensures r.Success? ==> fresh(r.value) && fresh(r.value.data) && r.value.Valid()
      ensures r.Success? ==> r.value.length == |x| && r.value.Elements() == x
      ensures r.Success? ==> r.value.data[..] == Pack(x)
    {
      var made := NewArray(|x|);
      if made.Failure? {
        return Failure(made.error);
      }
      var a := made.value;
      for i := 0 to |x|
        invariant a.Valid() && a.length == |x|
        invariant forall k :: 0 <= k < i ==> a.Elements()[k] == x[k]
      {
        a.Set(i, x[i]);
      }
      PackUnpack(a.data[..]);
      return Success(a);
    }
  }

  /**
   * The constructor `Array(int length)` with its exceptions: a negative length
   * is rejected, a length whose buffer size overflows fails the allocation, and
   * any other length gives an all-zero array of that length.
   */
  method NewArray(length: Int32) returns (r: Result<Array, ArrayError>)
    ensures r.Failure? <==> CheckLength(length).Some?
    ensures r.Failure? ==> r.error == CheckLength(length).value
    ensures r.Success? ==> fresh(r.value) && fresh(r.value.data) && r.value.Valid()
    ensures r.Success? ==> r.value.length == length && r.value.Elements() == seq(length, _ => Zero)
  {
    var err := CheckLength(length);
    if err.Some? {
      return Failure(err.value);
    }
    var a := new Array(length);
    return Success(a);
  }
}
