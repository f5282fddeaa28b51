/** Values shared by the fan-out writer and the process model: Go's byte
    slices, Go's `error` values, and a nil-able wrapper for them. */
module Base {

  /** A Go `byte`. */
  type byte = x: int | 0 <= x < 256

  /** A Go `[]byte`. */
  type Bytes = seq<byte>

  /** `None` stands for Go's `nil`. */
  datatype Option<T> = None | Some(value: T)

  /** The error values the package produces or passes through. `EOF` is
      `io.EOF`, the error the package's tests inject; `ErrShortWrite` is
      `io.ErrShortWrite`; every other error is told apart by its message. */
  datatype Error = EOF | ErrShortWrite | Failure(message: string)

  /** Concatenation of a sequence of sequences (byte buffers, argument
      lists), oldest first. */
  function Flatten<T>(xs: seq<seq<T>>): seq<T>
    decreases |xs|
  {
    if xs == [] then [] else Flatten(xs[..|xs| - 1]) + xs[|xs| - 1]
  }

  /** Appending one more piece appends its elements. */
  lemma FlattenSnoc<T>(xs: seq<seq<T>>, x: seq<T>)
    ensures Flatten(xs + [x]) == Flatten(xs) + x
  {
    assert (xs + [x])[..|xs|] == xs;
  }
}
