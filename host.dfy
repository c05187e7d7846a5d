/**
 The host side of the bridge: the dynamically-typed values the caller passes
 in, the fallible number readers the binding layer offers for them, and the
 numbers the bridge hands back. Floating-point values are opaque: a double is
 identified with its IEEE 754 binary64 bit pattern (section 3.4 of IEEE
 754-2008), and no arithmetic on it is modelled.
 */
module Host {
  import opened Wasm

  /** A binary64 floating-point number, known only through its bit pattern. */
  datatype Double = Double(bits: Bits64)

  /** The raw bits of a double. */
  function ToBits(d: Double): (b: Bits64)
  {
    d.bits
  }

  /** The double whose raw bits are `b`; the inverse of ToBits. */
  function FromBits(b: Bits64): (d: Double)
    ensures ToBits(d) == b
  {
    Double(b)
  }

  lemma FromBitsToBits(d: Double)
    ensures FromBits(ToBits(d)) == d
  {
  }

  /** Why the binding layer could not read a host value. */
  datatype Status =
    | NumberExpected               // the value is not a number
    | PendingException(reason: string)  // reading the element ran host code that threw

  /** The result of a binding-layer read: a value, or the status that made it fail. */
  datatype Read<T> = Value(value: T) | Failed(status: Status)

  /**
   A caller-supplied value. A number carries what the binding layer's three
   readers give for it (the host's own truncation and wrap-around rules are not
   modelled); anything else fails those readers; and an element whose read
   runs host code may throw before any reader is applied.
   */
  datatype JsValue =
    | Number(asInt32: Int32, asInt64: Int64, asDouble: Double)
    | NotNumber
    | Throwing(reason: string)

  /** Reading the element itself: only a throwing element fails here. */
  function Fetch(v: JsValue): (r: Read<JsValue>)
  {
    match v
    case Throwing(reason) => Failed(PendingException(reason))
    case _ => Value(v)
  }

  function GetInt32(v: JsValue): (r: Read<Int32>)
  {
    match v
    case Number(n, _, _) => Value(n)
    case _ => Failed(NumberExpected)
  }

  function GetInt64(v: JsValue): (r: Read<Int64>)
  {
    match v
    case Number(_, n, _) => Value(n)
    case _ => Failed(NumberExpected)
  }

  function GetDouble(v: JsValue): (r: Read<Double>)
  {
    match v
    case Number(_, _, d) => Value(d)
    case _ => Failed(NumberExpected)
  }

  /**
   A number the bridge creates for the caller, recorded by the value it was
   made from. On the host every number is a double; the rounding of an int64
   beyond 2^53 and the widening of a 32-bit float to a double are kept
   symbolic: the value records the int64 or the float's bits.
   */
  datatype JsNumber =
    | FromInt32(i32: Int32)
    | FromInt64(i64: Int64)
    | FromDouble(f64: Double)
    | FromWidenedFloat(f32: Bits32)
}
