/** Bytes, optional values, results and the errors the decoder can report. */
module Base {

  /** A byte of the input stream (Go's `byte`). */
  newtype byte = b: int | 0 <= b < 256

  /** The bytes of an ASCII literal; used to spell the protocol's keywords. */
  function Ascii(s: string): seq<byte>
  {
    seq(|s|, i requires 0 <= i < |s| => (s[i] as int % 256) as byte)
  }

  const NEWLINE: byte := 10

  datatype Option<+T> = None | Some(value: T)

  /**
   * Every way a decode can fail. Go reports errors as formatted strings
   * (and `make` with a negative length panics); the model keeps only the kind.
   */
  datatype Error =
    | Eof                      // io.EOF from the byte buffer
    | BadInt                   // strconv.Atoi rejected a line
    | BadFloat                 // strconv.ParseFloat rejected a line
    | BadBool(got: byte)       // a `b` element followed by neither '0' nor '1'
    | BadRef(index: int)       // an `r` index outside the object table
    | BadTag(tag: byte)        // an unknown element tag
    | BadMagic(line: seq<byte>)  // the first line is not `cereal1`
    | NegativeLength(n: int)   // `make` called with a negative length (a panic in Go)
    | NilObject(slot: nat)     // a parse method called on a nil table slot (a panic in Go)
    | NotADict                 // an object's payload is not a dict
    | NonStringKey             // an object's dict has a key that is not a string
    | NotPointer               // Unmarshal was not given a non-nil pointer
    | TypeMismatch             // scalar target of a different kind than the value
    | Overflow(value: int)     // integer does not fit the target width
    | Unsupported              // target kind the converter does not handle
    | NotSlice                 // list or tuple converted into a non-slice target
    | NotMap                   // dict converted into a non-map target
    | NotStruct                // object converted into a non-struct target

  datatype Result<+T> = Ok(value: T) | Err(error: Error)

  /** A value read from the stream together with the offset just past it. */
  datatype Parsed<+T> = Parsed(val: T, next: nat)

  /**
   * The outcome of a method that returns `r` and leaves the cursor at `off`,
   * in the shape of the reference definitions (the offset matters only on success).
   */
  function Step<T>(r: Result<T>, off: nat): Result<Parsed<T>>
  {
    match r
    case Ok(v) => Ok(Parsed(v, off))
    case Err(e) => Err(e)
  }
}
