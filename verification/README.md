# Whiteboard canvas model

A Dafny model of the server-side raster `Canvas` of the collaborative
whiteboard (`dev.oscarrojas.whiteboard.canvas.Canvas`). A canvas has an
identifier, a width and a height in pixels, and a byte buffer holding four
RGBA bytes per pixel. It is modelled as the class `WhiteboardCanvas.Canvas`
with a nullable `array?<bv8>` buffer, because the default constructor leaves
the buffer unallocated. Its methods update the fields in place, under
`modifies` frames:

- the three constructors;
- `PutData`, which checks the length of the new buffer and then stores the
  caller's array by reference;
- `Reset`, which zeroes the buffer with an index loop;
- the accessors `GetId`, `SetId` and `GetData`.

Java's 32-bit `int` is modelled exactly (module `JavaInt`). The required
length `width * height * 4` is computed the way Java computes it: two
wrapping multiplications. When the product fits an `int`, it is the exact
product (`RequiredLength`); in general it is one wrap of the exact product
(`RequiredLengthIsWrappedProduct`). When it does not fit, the wrapped
value is what `putData` compares against. For example, a 65536 × 65536 canvas
demands a buffer of length 0 (`OverflowingDimensionsDemandEmptyBuffer`).

`Sized()` is the length `putData` enforces: a buffer exists and holds exactly
`width * height * 4` bytes. Only some operations establish it:

- `OfSize` establishes it, and so does every successful `PutData`.
- A failed `PutData` and `Reset` preserve it.
- The default constructor never establishes it.
- `FromData` establishes it exactly when the argument's length happens to
  match.

Module `CanvasProperties` holds client methods. Each derives one multi-call
property from the class contracts alone:

- reset is idempotent;
- `setId` followed by `getId` returns the id that was set;
- an accepted buffer is shared with the caller;
- of two updates with different sizes, the valid one wins whatever the order.

What the code does not do, and the model therefore does not either:

- The code does not reject non-positive dimensions.
- The three-argument constructor allocates a zeroed buffer of the argument's
  length instead of copying the argument's bytes.
- The buffer-length invariant is not enforced at construction.

## Model

| member | source | states |
|---|---|---|
| `JavaInt.Wrap` | whiteboard-app/src/main/java/dev/oscarrojas/whiteboard/canvas/Canvas.java:42 | The result is a 32-bit `int` congruent to the input modulo 2^32, and equals the input whenever the input already fits an `int`. |
| `JavaInt.Mul` | whiteboard-app/src/main/java/dev/oscarrojas/whiteboard/canvas/Canvas.java:42 | Java `int` multiplication: the result is congruent to the exact product modulo 2^32, and equals it when it fits an `int`. |
| `JavaInt.WrapCongruent` | whiteboard-app/src/main/java/dev/oscarrojas/whiteboard/canvas/Canvas.java:42 | Two integers that differ by a multiple of 2^32 wrap to the same `int`. |
| `WhiteboardCanvas.RequiredLength` | whiteboard-app/src/main/java/dev/oscarrojas/whiteboard/canvas/Canvas.java:42 | The `int` value of `width * height * 4` (Java's left-to-right wrapping evaluation, also used at line 24) is congruent to the exact product modulo 2^32, and is exactly `width*height*4` when that lies in `[0, INT_MAX]`. |
| `WhiteboardCanvas.RequiredLengthIsWrappedProduct` | whiteboard-app/src/main/java/dev/oscarrojas/whiteboard/canvas/Canvas.java:42 | `width * height * 4`, evaluated left to right with a wrap after each product, equals one wrap of the exact product. |
| `WhiteboardCanvas.Zeroes` | whiteboard-app/src/main/java/dev/oscarrojas/whiteboard/canvas/Canvas.java:24 | A freshly allocated buffer of n bytes has length n, and every byte is 0. |
| `WhiteboardCanvas.AllZeroIsZeroes` | whiteboard-app/src/main/java/dev/oscarrojas/whiteboard/canvas/Canvas.java:48-52 | A buffer is all zero if and only if it is the zero buffer of its own length. |
| `WhiteboardCanvas.Canvas.constructor` | whiteboard-app/src/main/java/dev/oscarrojas/whiteboard/canvas/Canvas.java:8-19 | The default canvas is 1000 × 1000 with the given id, its buffer is null, and so it does not satisfy the length invariant. |
| `WhiteboardCanvas.Canvas.OfSize` | whiteboard-app/src/main/java/dev/oscarrojas/whiteboard/canvas/Canvas.java:21-25 | Records the given width and height. The buffer is fresh, all zero, and exactly `width*height*4` long (as a Java `int`), so the length invariant holds. |
| `WhiteboardCanvas.Canvas.FromData` | whiteboard-app/src/main/java/dev/oscarrojas/whiteboard/canvas/Canvas.java:27-31 | The buffer is fresh, distinct from the argument, as long as the argument and all zero; the argument is untouched. The length invariant holds iff the argument's length equals `width*height*4`. |
| `WhiteboardCanvas.Canvas.GetId` | whiteboard-app/src/main/java/dev/oscarrojas/whiteboard/canvas/Canvas.java:33-35 | Returns the current id and changes nothing. |
| `WhiteboardCanvas.Canvas.SetId` | whiteboard-app/src/main/java/dev/oscarrojas/whiteboard/canvas/Canvas.java:37-39 | The id becomes the argument. Width, height and the buffer reference are unchanged. |
| `WhiteboardCanvas.Canvas.PutData` | whiteboard-app/src/main/java/dev/oscarrojas/whiteboard/canvas/Canvas.java:41-46 | Succeeds iff the argument's length equals `width*height*4`. On success the buffer is the caller's very array, so the length invariant holds. On failure it returns the invalid-input error with the source's message, and the buffer reference and the invariant are as before. It never changes id, width, height or any array's contents. |
| `WhiteboardCanvas.Canvas.Reset` | whiteboard-app/src/main/java/dev/oscarrojas/whiteboard/canvas/Canvas.java:48-52 | The same array, of the same length, now holds only zero bytes, and id, width and height are unchanged. The loop invariant: bytes before the index are zero, and the rest are as before. |
| `WhiteboardCanvas.Canvas.GetData` | whiteboard-app/src/main/java/dev/oscarrojas/whiteboard/canvas/Canvas.java:54-56 | Returns the stored buffer reference itself, not a copy, and changes nothing. |
| `CanvasProperties.ResetTwice` | whiteboard-app/src/main/java/dev/oscarrojas/whiteboard/canvas/Canvas.java:48-52 | Reset is idempotent: after a second reset the buffer equals the all-zero buffer left by the first. |
| `CanvasProperties.SetThenGetId` | whiteboard-app/src/main/java/dev/oscarrojas/whiteboard/canvas/Canvas.java:33-39 | `getId` after `setId(s)` returns `s`, and no other field changes. |
| `CanvasProperties.AcceptedBufferIsShared` | whiteboard-app/src/main/java/dev/oscarrojas/whiteboard/canvas/Canvas.java:41-56 | `putData(a)` with a correctly sized `a` passes, the canvas then stores `a` itself and satisfies the length rule, and `getData` returns `a`, so a write through the caller's reference shows up in the canvas. |
| `CanvasProperties.ValidUpdateWins` | whiteboard-app/src/main/java/dev/oscarrojas/whiteboard/canvas/Canvas.java:41-46 | Of one correctly sized and one wrongly sized update, in either order, the wrong one fails with invalid input, and the canvas ends up holding the correct one. |
| `CanvasProperties.FreshCanvasLength` | whiteboard-app/src/main/java/dev/oscarrojas/whiteboard/canvas/Canvas.java:21-25 | Whenever `width*height*4` lies in `[0, INT_MAX]`, a new canvas has an all-zero buffer of exactly `width*height*4` bytes. |
| `CanvasProperties.OverflowingDimensionsDemandEmptyBuffer` | whiteboard-app/src/main/java/dev/oscarrojas/whiteboard/canvas/Canvas.java:42 | For 65536 × 65536 the `int` expression `width * height * 4` is 0, although the exact product is not. |

## Left out

- Random id generation (`UUID.randomUUID()`): each constructor takes the id as a parameter.
- A `null` id is not modelled: ids are strings.
- Bytes are modelled as `bv8`. The bit pattern is all that matters, so Java's signed reading of a byte plays no part.
- Java's limit on array length (at most `INT_MAX` elements) is not modelled. Dafny arrays may be longer; such an array never matches the required `int` length, so `PutData` rejects it.
- WhiteboardCanvas.Canvas.OfSize: Java throws `NegativeArraySizeException` when the wrapped `width * height * 4` is negative. That case is a precondition rather than an error result.
- WhiteboardCanvas.Canvas.Reset: on a canvas without a buffer (default constructor) Java throws `NullPointerException`. That case is a precondition.
- WhiteboardCanvas.Canvas.FromData: a `null` argument, which makes Java throw `NullPointerException` when it reads `data.length`, is excluded by the non-null parameter type.
- WhiteboardCanvas.Canvas.PutData: a `null` argument, which makes Java throw `NullPointerException`, is excluded by the non-null parameter type.
- Concurrency: nothing in the class is synchronized, and the model is sequential.
- The session (`AppSession`), the in-memory session store (`InMemoryAppSessionDao`) and the binary encoder (`AppMessageBinaryEncoder`) are outside this model.
- Spring configuration and annotation-driven listener wiring (`config/AppConfig.java`): framework plumbing.
- The browser client (`whiteboard-client/`): DOM events, 2D drawing, WebSocket sends on a timer and floating-point coordinate scaling.
