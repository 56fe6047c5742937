/**
 * Shared vocabulary: bytes, 16-bit values in either byte order, and the
 * Option/Result wrappers used for the source's `(value, error)` returns.
 */
module Base {

  type byte = b: int | 0 <= b < 0x100
  type u16 = v: int | 0 <= v < 0x1_0000

  datatype Option<T> = None | Some(value: T)

  datatype Result<T, E> = Ok(value: T) | Err(error: E)

  datatype ByteOrder = BigEndian | LittleEndian

  /** Go's `uint16(n)` conversion of a non-negative length. */
  function Truncate16(n: nat): (v: u16)
    ensures n < 0x1_0000 ==> v == n
  {
    n % 0x1_0000
  }

  /** The value of two bytes read in the given order (`binary.ByteOrder.Uint16`). */
  function DecodeU16(b: seq<byte>, order: ByteOrder): u16
    requires |b| == 2
  {
    match order
    case BigEndian => b[0] as int * 0x100 + b[1] as int
    case LittleEndian => b[1] as int * 0x100 + b[0] as int
  }

  /** The two bytes of `v` in the given order (`binary.ByteOrder.PutUint16`). */
  function EncodeU16(v: u16, order: ByteOrder): (r: seq<byte>)
    ensures |r| == 2
    ensures DecodeU16(r, order) == v
  {
    match order
    case BigEndian => [v / 0x100, v % 0x100]
    case LittleEndian => [v % 0x100, v / 0x100]
  }

  /** Two bytes are the encoding of the value they decode to. */
  lemma EncodeDecodeU16(b: seq<byte>, order: ByteOrder)
    requires |b| == 2
    ensures EncodeU16(DecodeU16(b, order), order) == b
  {
  }

  /** `n` zero bytes. */
  function Zeros(n: nat): (r: seq<byte>)
    ensures |r| == n
    ensures forall i :: 0 <= i < n ==> r[i] == 0
  {
    seq(n, _ => 0)
  }

  predicate IsLatin1(s: string)
  {
    forall i :: 0 <= i < |s| ==> s[i] as int < 0x100
  }

  /** The bytes of a Go string literal written in ASCII. */
  function Ascii(s: string): (r: seq<byte>)
    requires IsLatin1(s)
    ensures |r| == |s|
    ensures forall i :: 0 <= i < |s| ==> r[i] == s[i] as int
  {
    seq(|s|, i requires 0 <= i < |s| => s[i] as int)
  }

  // Proof helpers: the sequence identities the proofs of the other modules cite.

  /** A sequence is its first `n` elements followed by the rest. */
  lemma TakeDrop<T>(s: seq<T>, n: nat)
    requires n <= |s|
    ensures s == s[..n] + s[n..]
  {
  }

  /** Appending the empty sequence changes nothing. */
  lemma AppendEmpty<T>(s: seq<T>)
    ensures s + [] == s && [] + s == s
  {
  }

  /** Concatenation is associative. */
  lemma AppendAssoc<T>(a: seq<T>, b: seq<T>, c: seq<T>)
    ensures a + (b + c) == (a + b) + c
  {
  }
}
