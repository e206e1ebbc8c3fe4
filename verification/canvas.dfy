/** The server-side raster of one whiteboard: an identifier, the dimensions in
    pixels and a buffer of RGBA bytes (four per pixel). */
module WhiteboardCanvas {
  import opened JavaInt

  const DEFAULT_WIDTH: Int32 := 1000
  const DEFAULT_HEIGHT: Int32 := 1000
  const BYTES_PER_PIXEL: Int32 := 4
  const SIZE_MISMATCH: string := "Input array does not match required size"

  /** The checked exception `putData` throws. */
  datatype InvalidInput = InvalidInput(message: string)

  /** How a call that may throw `InvalidInput` ends. */
  datatype Outcome = Pass | Fail(error: InvalidInput)

  /** The buffer length a canvas of these dimensions demands, computed as the
      Java expression `width * height * 4` is: left to right, each product
      wrapped to 32 bits. The result agrees with the exact product modulo 2^32
      and is the exact product whenever that fits an `int`. */
  function RequiredLength(width: Int32, height: Int32): (r: Int32)
    ensures (width * height * 4 - r) % MODULUS == 0
    ensures 0 <= width * height * 4 <= INT_MAX ==> r == width * height * 4
  {
    var product := width * height;
    var wh := Mul(width, height);
    var r := Mul(wh, BYTES_PER_PIXEL);
    var k := (product - wh) / MODULUS;
    assert product - wh == k * MODULUS;
    AddMultiple(wh * 4 - r, 4 * k);
    assert product * 4 - r == (wh * 4 - r) + (4 * k) * MODULUS;
    r
  }

  /** The two wrapping multiplications lose nothing beyond one final wrap of the
      exact product. */
  lemma {:induction false} RequiredLengthIsWrappedProduct(width: Int32, height: Int32)
    ensures RequiredLength(width, height) == Wrap(width * height * 4)
  {
    var r := RequiredLength(width, height);
    WrapCongruent(width * height * 4, r);
  }

  /** A buffer of `n` zero bytes, what `new byte[n]` yields in Java. */
  function Zeroes(n: nat): (z: seq<bv8>)
    ensures |z| == n && AllZero(z)
  {
    if n == 0 then [] else Zeroes(n - 1) + [0]
  }

  predicate AllZero(s: seq<bv8>)
  {
    forall i :: 0 <= i < |s| ==> s[i] == 0
  }

  /** Zeroes(n) is the only all-zero buffer of length n. */
  lemma {:induction false} AllZeroIsZeroes(s: seq<bv8>)
    ensures AllZero(s) <==> s == Zeroes(|s|)
  {
    if AllZero(s) {
      var z := Zeroes(|s|);
      assert forall i :: 0 <= i < |s| ==> s[i] == z[i];
    }
  }

  class Canvas {
    var id: string
    var width: Int32
    var height: Int32
    var data: array?<bv8>

    /** The length putData enforces: a buffer exists and holds exactly
        `width * height * 4` bytes. Only some constructors establish it; a
        successful putData always does. */
    predicate Sized()
      reads this
    {
      data != null && data.Length == RequiredLength(width, height)
    }

    /** `new Canvas()`: default dimensions, no buffer yet. The random UUID the
        source draws is the parameter `id`. */
    constructor (id: string)
      ensures this.id == id
      ensures width == DEFAULT_WIDTH && height == DEFAULT_HEIGHT
      ensures data == null && !Sized()
    {
      this.id := id;
      width := DEFAULT_WIDTH;
      height := DEFAULT_HEIGHT;
      data := null;
    }

    /** `new Canvas(width, height)`: a fresh zeroed buffer of `width * height * 4`
        bytes. Java throws NegativeArraySizeException when that `int` is negative. */
    constructor OfSize(id: string, width: Int32, height: Int32)
      requires 0 <= RequiredLength(width, height)
      ensures this.id == id && this.width == width && this.height == height
      ensures data != null && fresh(data)
      ensures data[..] == Zeroes(RequiredLength(width, height))
      ensures Sized()
    {
      this.id := id;
      this.width := width;
      this.height := height;
      data := new bv8[RequiredLength(width, height)](_ => 0);
      new;
      AllZeroIsZeroes(data[..]);
    }

    /** `new Canvas(width, height, data)`: a fresh zeroed buffer as long as the
        argument. Its bytes are not copied and its length is not checked against
        the dimensions. */
    constructor FromData(id: string, width: Int32, height: Int32, initial: array<bv8>)
      ensures this.id == id && this.width == width && this.height == height
      ensures data != null && fresh(data) && data != initial
      ensures data[..] == Zeroes(initial.Length)
      ensures unchanged(initial)
      ensures Sized() <==> initial.Length == RequiredLength(width, height)
    {
      this.id := id;
      this.width := width;
      this.height := height;
      data := new bv8[initial.Length](_ => 0);
      new;
      AllZeroIsZeroes(data[..]);
    }

    method GetId() returns (r: string)
      ensures r == id
    {
      r := id;
    }

    method SetId(id: string)
      modifies this`id
      ensures this.id == id
      ensures width == old(width) && height == old(height) && data == old(data)
    {
      this.id := id;
    }

    /** Replaces the buffer by the caller's array itself (no copy), provided its
        length is the one the dimensions demand; otherwise throws and changes
        nothing. */
    method PutData(incoming: array<bv8>) returns (r: Outcome)
      modifies this`data
      ensures r.Pass? <==> incoming.Length == RequiredLength(width, height)
      ensures r.Fail? ==> r.error == InvalidInput(SIZE_MISMATCH)
      ensures r.Pass? ==> data == incoming && Sized()
      ensures r.Fail? ==> data == old(data) && Sized() == old(Sized())
      ensures id == old(id) && width == old(width) && height == old(height)
      ensures unchanged(incoming) && (old(data) != null ==> unchanged(old(data)))
    {
      if incoming.Length != RequiredLength(width, height) {
        return Fail(InvalidInput(SIZE_MISMATCH));
      }
      data := incoming;
      r := Pass;
    }

    /** Zeroes the buffer in place, one byte at a time. The source dereferences
        the buffer unconditionally, so it must exist. */
    method Reset()
      requires data != null
      modifies data
      ensures data == old(data) && data[..] == Zeroes(old(data.Length))
      ensures id == old(id) && width == old(width) && height == old(height)
    {
      var i := 0;
      while i < data.Length
        invariant 0 <= i <= data.Length
        invariant forall k :: 0 <= k < i ==> data[k] == 0
        invariant forall k :: i <= k < data.Length ==> data[k] == old(data[k])
      {
        data[i] := 0;
        i := i + 1;
      }
      AllZeroIsZeroes(data[..]);
    }

    /** Hands out the stored buffer itself: the caller and the canvas share one
        array from then on. */
    method GetData() returns (r: array?<bv8>)
      ensures r == data
    {
      r := data;
    }
  }
}
