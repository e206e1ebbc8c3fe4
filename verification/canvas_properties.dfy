/** What a caller of the canvas can rely on across several calls, derived from
    the contracts of WhiteboardCanvas.Canvas alone. */
module CanvasProperties {
  import opened JavaInt
  import opened WhiteboardCanvas

  /** A second reset leaves the buffer exactly as the first one did. */
  method ResetTwice(c: Canvas) returns (afterFirst: seq<bv8>)
    requires c.data != null
    modifies c.data
    ensures c.data[..] == afterFirst && AllZero(afterFirst)
  {
    c.Reset();
    afterFirst := c.data[..];
    c.Reset();
  }

  /** An id set is the id read back, and nothing else moves. */
  method SetThenGetId(c: Canvas, id: string) returns (got: string)
    modifies c`id
    ensures got == id
    ensures c.width == old(c.width) && c.height == old(c.height) && c.data == old(c.data)
  {
    c.SetId(id);
    got := c.GetId();
  }

  /** After an accepted putData the canvas stores the caller's array itself:
      a later write through the caller's reference is what getData shows. */
  method AcceptedBufferIsShared(c: Canvas, incoming: array<bv8>, b: bv8)
    returns (r: Outcome, seen: array?<bv8>)
    requires incoming.Length == RequiredLength(c.width, c.height) && incoming.Length > 0
    modifies c`data, incoming
    ensures r == Pass && c.data == incoming && c.Sized()
    ensures seen == incoming && seen[0] == b
  {
    r := c.PutData(incoming);
    incoming[0] := b;
    seen := c.GetData();
  }

  /** Of two updates with differently sized payloads, in either order, the one
      whose size fits is what the canvas holds afterwards. */
  method ValidUpdateWins(c: Canvas, good: array<bv8>, bad: array<bv8>, goodFirst: bool)
    returns (rGood: Outcome, rBad: Outcome)
    requires good.Length == RequiredLength(c.width, c.height) && bad.Length != good.Length
    modifies c`data
    ensures rGood == Pass && rBad == Fail(InvalidInput(SIZE_MISMATCH))
    ensures c.data == good && c.Sized()
  {
    if goodFirst {
      rGood := c.PutData(good);
      rBad := c.PutData(bad);
    } else {
      rBad := c.PutData(bad);
      rGood := c.PutData(good);
    }
  }

  /** A freshly sized canvas has a buffer of exactly `width * height * 4` bytes
      whenever that product fits an `int`. */
  method FreshCanvasLength(id: string, width: Int32, height: Int32) returns (c: Canvas)
    requires 0 <= width * height * 4 <= INT_MAX
    ensures c.data != null && c.data.Length == width * height * 4 && AllZero(c.data[..])
    ensures c.width == width && c.height == height
  {
    c := new Canvas.OfSize(id, width, height);
  }

  /** Java's `int` overflow: a 65536 x 65536 canvas demands a buffer of length 0,
      so putData accepts an empty array for it. */
  lemma OverflowingDimensionsDemandEmptyBuffer()
    ensures RequiredLength(65536, 65536) == 0
    ensures 65536 * 65536 * 4 != 0
  {
  }
}
