/** Shared vocabulary of the model: optional values, failures, bytes, ids and
    the opaque vector values that the server copies but never computes with. */
module Base {

  /** A value that may be absent: the model's counterpart of a nullable reference. */
  datatype Option<+T> = None | Some(value: T)

  /** The exceptions the modelled code can raise, as values. */
  datatype Error =
    | NotSupported       // NotSupportedException
    | ArgumentOutOfRange // String.Substring with a range past the end
    | IndexOutOfRange    // indexing an empty array
    | DecodeFailed       // a packet Read that threw
    | NativeFailed       // the native send threw
    | NotImplemented     // NotImplementedException

  /** The outcome of an operation that either returns a value or throws. */
  datatype Result<+T> = Ok(value: T) | Fail(error: Error)

  /** The outcome of an operation with no return value that may throw. */
  datatype Outcome = Done | Threw(error: Error)

  type Byte = b: int | 0 <= b < 256
  type Bytes = seq<Byte>

  /** C#'s `(byte)` cast: keeps the low eight bits. */
  function ToByte(n: int): (b: Byte)
    ensures 0 <= n < 256 ==> b == n
  {
    n % 256
  }

  /** C#'s `(ushort)` cast: keeps the low sixteen bits. */
  function ToUShort(n: int): (u: nat)
    ensures u < 0x1_0000
    ensures 0 <= n < 0x1_0000 ==> u == n
  {
    n % 0x1_0000
  }

  /** Element ids are the `uint` Id of an Element. */
  type ElementId = nat

  /** A net wrapper, one native network module the server listens on. */
  type WrapperId = nat

  /** The binary address of a remote peer on one net wrapper. */
  type Address = nat

  /** Positions, rotations and velocities: copied around, never computed with. */
  datatype Vector3 = Vector3(x: real, y: real, z: real)
  datatype Vector2 = Vector2(x: real, y: real)

  /** A colour with alpha, as System.Drawing.Color. */
  datatype Color = Color(r: Byte, g: Byte, b: Byte, a: Byte)

  /** One byte per character: the bytes BinaryWriter writes for ASCII text. */
  function Ascii(s: string): (r: Bytes)
    ensures |r| == |s|
    ensures forall i :: 0 <= i < |s| ==> r[i] == ToByte(s[i] as int)
  {
    if s == [] then [] else [ToByte(s[0] as int)] + Ascii(s[1..])
  }

  /** Whether no value occurs twice in `s`. */
  predicate Distinct<T(==)>(s: seq<T>)
  {
    forall i, j :: 0 <= i < j < |s| ==> s[i] != s[j]
  }
}
