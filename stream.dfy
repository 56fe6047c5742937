/**
 * A byte stream as the source's readers see it: the bytes still to be
 * delivered and how the stream ends once they are used up, either with a
 * clean end of data (`io.EOF`) or with some other read error, plus the
 * all-or-error read (`io.ReadFull`) that every decoder in the X11 code is
 * built on.
 */
module Stream {
  import opened Base

  /** The errors a full read can report. */
  datatype IoError =
    | Eof                 // `io.EOF`: nothing was read before the end
    | UnexpectedEof       // `io.ErrUnexpectedEOF`: the end came part-way
    | Failed(code: nat)   // any other read error, passed through unchanged

  /** How a stream ends once its data is exhausted. */
  datatype End = CleanEnd | Broken(code: nat)

  /**
   * The error a read reports when the data runs out: the stream's own
   * error, where a clean end is `Eof` if nothing was read and
   * `UnexpectedEof` if some was.
   */
  function EndError(end: End, nothingRead: bool): (e: IoError)
    ensures end.Broken? <==> e.Failed?
    ensures e == Eof <==> end.CleanEnd? && nothingRead
  {
    match end
    case Broken(c) => Failed(c)
    case CleanEnd => if nothingRead then Eof else UnexpectedEof
  }

  /**
   * `io.ReadFull` of `n` bytes from the remaining data `rest`: the bytes
   * and what remains after them, if they are all there; otherwise the
   * error for the end of the stream.
   */
  function ReadFullFrom(rest: seq<byte>, end: End, n: nat): (r: Result<(seq<byte>, seq<byte>), IoError>)
    ensures r.Ok? <==> n <= |rest|
    ensures r.Ok? ==> |r.value.0| == n && |r.value.1| == |rest| - n
    ensures r.Err? ==> r.error == EndError(end, |rest| == 0)
  {
    if n <= |rest| then Ok((rest[..n], rest[n..]))
    else Err(EndError(end, |rest| == 0))
  }

  /** A successful read splits the data: what was read, then what remains. */
  lemma ReadFullSplit(rest: seq<byte>, end: End, n: nat)
    requires n <= |rest|
    ensures var (a, b) := ReadFullFrom(rest, end, n).value; a + b == rest
  {
    assert rest[..n] + rest[n..] == rest;
  }

  /** Reading `|a|` bytes from `a + b` gives `a` and leaves `b`. */
  lemma ReadFullPrefix(a: seq<byte>, b: seq<byte>, end: End)
    ensures ReadFullFrom(a + b, end, |a|) == Ok((a, b))
  {
    var r := ReadFullFrom(a + b, end, |a|).value;
    assert r.0 == (r.0 + r.1)[..|a|] == a;
  }

  /**
   * A consuming reader: `rest` is what the underlying stream has yet to
   * deliver, `end` how it ends.
   */
  class Reader {
    var rest: seq<byte>
    const end: End

    constructor (data: seq<byte>, e: End)
      ensures rest == data && end == e
    {
      rest := data;
      end := e;
    }

    /** `io.ReadFull`: on failure everything that was available has been consumed. */
    method ReadFull(n: nat) returns (r: Result<seq<byte>, IoError>)
      modifies this
      ensures var f := ReadFullFrom(old(rest), end, n);
        (f.Ok? ==> r == Ok(f.value.0) && rest == f.value.1) &&
        (f.Err? ==> r == Err(f.error) && rest == [])
    {
      var f := ReadFullFrom(rest, end, n);
      if f.Ok? {
        r := Ok(f.value.0);
        rest := f.value.1;
      } else {
        r := Err(f.error);
        rest := [];
      }
    }
  }
}
