# Packed complex arrays of Smile, in Dafny

This project models `smile.math.Complex.Array` from the Smile machine-learning
library: a packed array of complex numbers that stores all its elements in one
flat `double[]` buffer of `2 * length` slots, element `i` keeping its real part
at slot `2 * i` and its imaginary part at slot `2 * i + 1`. The buffer is
updated in place by `set`/`update`, filled by the `of` factory and read back by
`get`/`apply`. The model also covers the record `Complex` itself as a pair of
components, with its exact operation `conjugate`.

Layout of the project:

- `complex.dfy`, module `ComplexNumbers`: the record `Complex(re, im)` and `Conjugate`.
- `packed_layout.dfy`, module `PackedLayout`: Java `int` arithmetic
  (`WrapInt32`, the index shift `SlotOf`), and the layout as two functions,
  `Unpack` (buffer to elements) and its inverse `Pack` (elements to buffer),
  with the round trips and the effect of one- and two-slot stores on the elements.
- `complex_array.dfy`, module `ComplexArrays`: the class `Array` with a
  constant `length` and a constant buffer `data: array<real>`. Its abstract
  value `Elements()` is `Unpack(data[..])`. `NewArray` is the constructor with
  its exceptions, and `CheckLength` gives the constructor's failure cases.
- `wrappers.dfy`, module `Wrappers`: `Option` and `Result`. A `Result` stands for
  an exception the source throws.

A Java `double` is modelled by a Dafny `real`. The array only stores doubles
and reads them back, and `conjugate` only negates one of them. No rounding is
involved in either.

## Model

| member | source | states |
|---|---|---|
| `ComplexNumbers.Conjugate` | math/src/main/java/smile/math/Complex.java:108-110 | the conjugate keeps the real part and negates the imaginary part |
| `ComplexNumbers.ConjugateInvolutive` | math/src/main/java/smile/math/Complex.java:108-110 | conjugation is its own inverse |
| `PackedLayout.WrapInt32` | math/src/main/java/smile/math/Complex.java:164 | Java `int` arithmetic: the result is in the 32-bit range, is congruent to the exact value modulo 2^32, and is the exact value when that fits |
| `PackedLayout.SlotOf` | math/src/main/java/smile/math/Complex.java:169 | for every index of an array that can be allocated, `i << 1` does not overflow and equals `2 * i` |
| `PackedLayout.SlotOfWrapsNegative` | math/src/main/java/smile/math/Complex.java:169 | for a negative index `-2^31 + k` with `0 <= k <= 2^30 - 1`, the wrapped shift `i << 1` is `2k`, the real-part slot of element `k` |
| `PackedLayout.Unpack` | math/src/main/java/smile/math/Complex.java:151-153 | a buffer of `2n` slots holds `n` elements, element `i` made of slots `2i` (real part) and `2i + 1` (imaginary part) |
| `PackedLayout.Pack` | math/src/main/java/smile/math/Complex.java:151-153 | the inverse layout: `n` elements take `2n` slots, element `i`'s parts at slots `2i` and `2i + 1` |
| `PackedLayout.UnpackPack` | math/src/main/java/smile/math/Complex.java:151-153 | packing then unpacking gives back every element |
| `PackedLayout.PackUnpack` | math/src/main/java/smile/math/Complex.java:151-153 | unpacking then packing gives back the buffer, so every slot belongs to exactly one element |
| `PackedLayout.UnpackStore` | math/src/main/java/smile/math/Complex.java:179-183 | writing slots `2i` and `2i + 1` replaces element `i` and leaves every other element unchanged |
| `PackedLayout.UnpackStoreReal` | math/src/main/java/smile/math/Complex.java:186-189 | writing slot `2i` replaces only the real part of element `i`, and its imaginary part and every other element are kept |
| `PackedLayout.UnpackZeros` | math/src/main/java/smile/math/Complex.java:164 | a zero-filled buffer of `2n` slots holds `n` zero elements |
| `ComplexArrays.CheckLength` | math/src/main/java/smile/math/Complex.java:159-164 | construction fails exactly when the length is negative or above 2^30 - 1. A negative length gives `IllegalArgument` carrying that length. A length above 2^30 - 1 gives `NegativeArraySize` carrying the 32-bit wrapped `length * 2`, which is negative |
| `ComplexArrays.NewArray` | math/src/main/java/smile/math/Complex.java:159-165 | the constructor fails exactly in the cases of `CheckLength`, with that error. Otherwise it returns a fresh array of that length whose every element is 0 + 0i |
| `ComplexArrays.Array.constructor` | math/src/main/java/smile/math/Complex.java:163-164 | `length` is the argument, the fresh buffer has `2 * length` slots, all zero, and every element is 0 + 0i |
| `ComplexArrays.Array.Elements` | math/src/main/java/smile/math/Complex.java:151-153 | the array holds exactly `length` elements |
| `ComplexArrays.Array.Get` | math/src/main/java/smile/math/Complex.java:168-171 | `get(i)` is element `i` of the array, read from slots `2i` and `2i + 1` |
| `ComplexArrays.Array.Apply` | math/src/main/java/smile/math/Complex.java:174-176 | `apply(i)` is element `i`, as `get(i)` is |
| `ComplexArrays.Array.Set` | math/src/main/java/smile/math/Complex.java:179-183 | only slots `2i` and `2i + 1` change. Element `i` becomes `c`, so a later `get(i)` returns `c`, and every other element keeps its value |
| `ComplexArrays.Array.SetReal` | math/src/main/java/smile/math/Complex.java:186-189 | only slot `2i` changes. Element `i` gets the new real part and keeps its imaginary part, and every other element keeps its value |
| `ComplexArrays.Array.Update` | math/src/main/java/smile/math/Complex.java:192-194 | the same new buffer and elements as `Set` |
| `ComplexArrays.Array.UpdateReal` | math/src/main/java/smile/math/Complex.java:197-199 | the same new buffer and elements as `SetReal` |
| `ComplexArrays.Array.Of` | math/src/main/java/smile/math/Complex.java:201-207 | when `x` fits, it returns a fresh array of length `x.length` whose elements are those of `x` in order, and whose buffer is `Pack(x)`. It fails as the constructor does exactly when `x` has more than 2^30 - 1 elements |

## Left out

- Floating point: `double` is modelled as `real`. The model does not tell
  `-0.0` from `0.0` and has no NaN. So where `Conjugate` negates an imaginary
  part of `0.0`, the model does not show the `-0.0` that Java produces.
- The arithmetic of `Complex` (`add`, `sub`, `mul`, `scale`, `div`, `abs`,
  `phase`, `reciprocal`, `exp`, `sin`, `cos`, `tan`). It is IEEE floating-point
  computation, partly through `Math.hypot`, `atan2`, `exp`, `sin`, `cos`, `sinh`
  and `cosh`, and its results cannot be stated exactly.
- Indices outside `0 <= i < length`: `Get`, `Apply`, `Set`, `SetReal`,
  `Update` and `UpdateReal` require `0 <= i < length`. In Java most other
  indices raise `ArrayIndexOutOfBoundsException`. The exception is an index
  `-2^31 + k` with `0 <= k < length`. For such an index `i << 1` wraps to `2k`
  (`PackedLayout.SlotOfWrapsNegative`). `get` then quietly returns element `k`,
  and `set`/`update` overwrite element `k`, with no exception. The methods do
  not model this aliasing.
- `null` arguments: `Complex` is a datatype value, so the model has no `null`.
  In Java, `set(i, null)` throws `NullPointerException`, and so do `of(null)`
  and `of` with a `null` element.
- `ComplexArrays.Array.Of`: requires `x.length` to be a Java `int`, which every
  Java array length is.
- An `OutOfMemoryError` from allocating a very large buffer is not modelled.
  Every length up to 2^30 - 1 allocates.
- `Serializable` and the `equals`, `hashCode` and `toString` that the record
  generates.
- The regression tree (`smile.regression.RegressionTree`) is not part of this
  model. Its test `core/src/test/java/smile/regression/RegressionTreeTest.java`
  checks floating-point error figures of cross-validation runs over datasets.
