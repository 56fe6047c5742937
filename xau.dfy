/**
 * The X authority file format as libXau's `XauReadAuth` reads it, and the
 * streaming decoder over it (x11/xau.go).
 *
 * A record is a 16-bit big-endian family followed by four fields (address,
 * display number, authorization name, authorization data), each a 16-bit
 * big-endian length and then that many bytes; records follow each other
 * with no padding.
 *
 * The decoders are functions of the bytes still to be read and of how the
 * stream ends; they give what they decoded together with the bytes left
 * after it.
 */
module Xau {
  import opened Base
  import opened Stream

  /** One authority record; `number` and `name` are Go strings, i.e. bytes. */
  datatype Entry = Entry(family: u16, address: seq<byte>, number: seq<byte>, name: seq<byte>, data: seq<byte>)

  /** Every field fits its 16-bit length prefix. */
  predicate Encodable(e: Entry)
  {
    |e.address| < 0x1_0000 && |e.number| < 0x1_0000 && |e.name| < 0x1_0000 && |e.data| < 0x1_0000
  }

  function EncodeField(b: seq<byte>): (r: seq<byte>)
    requires |b| < 0x1_0000
    ensures |r| == 2 + |b|
  {
    EncodeU16(|b|, BigEndian) + b
  }

  /** The number of bytes a record occupies in the stream. */
  function EncodedSize(e: Entry): nat
  {
    10 + |e.address| + |e.number| + |e.name| + |e.data|
  }

  /** The writer side of the format (what `xauth extract` emits per record). */
  function EncodeEntry(e: Entry): (r: seq<byte>)
    requires Encodable(e)
    ensures |r| == EncodedSize(e)
  {
    EncodeU16(e.family, BigEndian) + EncodeField(e.address) + EncodeField(e.number)
      + EncodeField(e.name) + EncodeField(e.data)
  }

  /** A record's encoding followed by more bytes, field by field. */
  lemma EncodingThen(e: Entry, tail: seq<byte>)
    requires Encodable(e)
    ensures EncodeEntry(e) + tail == EncodeU16(e.family, BigEndian) + (EncodeField(e.address)
      + (EncodeField(e.number) + (EncodeField(e.name) + (EncodeField(e.data) + tail))))
  {
  }

  /** A whole file: the records' encodings back to back. */
  function EncodeAll(es: seq<Entry>): seq<byte>
    requires forall i :: 0 <= i < |es| ==> Encodable(es[i])
  {
    if es == [] then [] else EncodeEntry(es[0]) + EncodeAll(es[1..])
  }

  /** `wrapErr`: once the family is read, an end of data is unexpected. */
  function WrapErr(err: IoError): (r: IoError)
    ensures r != Eof
    ensures err != Eof ==> r == err
  {
    if err == Eof then UnexpectedEof else err
  }

  /**
   * `readData`: a big-endian length, then that many bytes. Gives the field
   * and what remains after it. A stream that ends cleanly right after the
   * length reports `Eof`, as `io.ReadFull` does for an empty read.
   */
  function ReadDataFrom(rest: seq<byte>, end: End): (r: Result<(seq<byte>, seq<byte>), IoError>)
    ensures r.Ok? ==> |r.value.0| < 0x1_0000 && |r.value.1| == |rest| - 2 - |r.value.0|
    ensures r.Err? ==> r.error == EndError(end, true) || r.error == EndError(end, false)
  {
    match ReadFullFrom(rest, end, 2)
    case Err(e) => Err(e)
    case Ok((lb, r1)) =>
      var l := DecodeU16(lb, BigEndian);
      match ReadFullFrom(r1, end, l)
      case Err(e) => Err(e)
      case Ok((b, r2)) => Ok((b, r2))
  }

  /** The bytes `readData` consumed are the encoding of the field it returned. */
  lemma ReadDataEncodes(rest: seq<byte>, end: End)
    requires ReadDataFrom(rest, end).Ok?
    ensures var (f, after) := ReadDataFrom(rest, end).value;
      rest == EncodeField(f) + after
  {
    var (lb, r1) := ReadFullFrom(rest, end, 2).value;
    ReadFullSplit(rest, end, 2);
    ReadFullSplit(r1, end, DecodeU16(lb, BigEndian));
    EncodeDecodeU16(lb, BigEndian);
    var (f, after) := ReadDataFrom(rest, end).value;
    assert rest == lb + (f + after);
  }

  /**
   * `readXauthorityEntry` as a function of the remaining bytes: the record
   * and what follows it, or the error.
   *
   * An error is what the end of the stream makes it, where a clean end is
   * `Eof` only when it comes before the first byte of a record and
   * `UnexpectedEof` anywhere inside one; any other read error passes
   * through unchanged.
   */
  function DecodeEntry(rest: seq<byte>, end: End): (r: Result<(Entry, seq<byte>), IoError>)
    ensures r.Ok? ==> Encodable(r.value.0) && |r.value.1| < |rest|
    ensures r.Err? ==> r.error == EndError(end, rest == [])
  {
    match ReadFullFrom(rest, end, 2)
    case Err(e) => Err(e)
    case Ok((fb, r0)) =>
      match ReadDataFrom(r0, end)
      case Err(e) => Err(WrapErr(e))
      case Ok((address, r1)) =>
        match ReadDataFrom(r1, end)
        case Err(e) => Err(WrapErr(e))
        case Ok((number, r2)) =>
          match ReadDataFrom(r2, end)
          case Err(e) => Err(WrapErr(e))
          case Ok((name, r3)) =>
            match ReadDataFrom(r3, end)
            case Err(e) => Err(WrapErr(e))
            case Ok((data, r4)) => Ok((Entry(DecodeU16(fb, BigEndian), address, number, name, data), r4))
  }

  /**
   * Decoding succeeds only where the bytes start with the encoding of the
   * decoded record, and it consumes exactly that encoding.
   */
  lemma DecodedBytes(rest: seq<byte>, end: End)
    requires DecodeEntry(rest, end).Ok?
    ensures var (e, after) := DecodeEntry(rest, end).value;
      rest == EncodeEntry(e) + after
  {
    var (e, after) := DecodeEntry(rest, end).value;
    var (fb, r0) := ReadFullFrom(rest, end, 2).value;
    ReadFullSplit(rest, end, 2);
    EncodeDecodeU16(fb, BigEndian);
    var r1 := ReadDataFrom(r0, end).value.1;
    var r2 := ReadDataFrom(r1, end).value.1;
    var r3 := ReadDataFrom(r2, end).value.1;
    ReadDataEncodes(r0, end);
    ReadDataEncodes(r1, end);
    ReadDataEncodes(r2, end);
    ReadDataEncodes(r3, end);
    EncodingThen(e, after);
  }

  /** A field's encoding is read back exactly, whatever follows it. */
  lemma ReadDataOfField(b: seq<byte>, tail: seq<byte>, end: End)
    requires |b| < 0x1_0000
    ensures ReadDataFrom(EncodeField(b) + tail, end) == Ok((b, tail))
  {
    assert EncodeField(b) + tail == EncodeU16(|b|, BigEndian) + (b + tail);
    ReadFullPrefix(EncodeU16(|b|, BigEndian), b + tail, end);
    ReadFullPrefix(b, tail, end);
  }

  /**
   * Round trip: a record's encoding decodes to that record, whatever
   * follows it in the stream and however the stream ends.
   */
  lemma DecodeEncodedEntry(e: Entry, tail: seq<byte>, end: End)
    requires Encodable(e)
    ensures DecodeEntry(EncodeEntry(e) + tail, end) == Ok((e, tail))
  {
    var r3 := EncodeField(e.data) + tail;
    var r2 := EncodeField(e.name) + r3;
    var r1 := EncodeField(e.number) + r2;
    var r0 := EncodeField(e.address) + r1;
    EncodingThen(e, tail);
    ReadFullPrefix(EncodeU16(e.family, BigEndian), r0, end);
    ReadDataOfField(e.address, r1, end);
    ReadDataOfField(e.number, r2, end);
    ReadDataOfField(e.name, r3, end);
    ReadDataOfField(e.data, tail, end);
  }

  /** No record's encoding is a proper prefix of another's (the format is self-delimiting). */
  lemma EncodingPrefixFree(a: Entry, b: Entry)
    requires Encodable(a) && Encodable(b)
    requires EncodedSize(a) <= EncodedSize(b) && EncodeEntry(b)[..EncodedSize(a)] == EncodeEntry(a)
    ensures a == b
  {
    var enc := EncodeEntry(b);
    TakeDrop(enc, EncodedSize(a));
    DecodeEncodedEntry(a, enc[EncodedSize(a)..], CleanEnd);
    AppendEmpty(enc);
    DecodeEncodedEntry(b, [], CleanEnd);
  }

  /** What the iterator hands its consumer at each step. */
  datatype Yield = Item(entry: Entry) | Failure(error: IoError)

  /**
   * A whole run of the iterator: records in stream order, ending either
   * quietly (`Stop`) or with one error (`Fail`).
   */
  datatype Run = Stop | Fail(error: IoError) | Next(entry: Entry, more: Run)

  /**
   * `parseXauthority` as seen by a consumer that never stops early: a
   * record per successful `readXauthorityEntry`, a quiet stop on `Eof`,
   * and any other error reported once, as the last thing.
   */
  function AllYields(rest: seq<byte>, end: End): Run
    decreases |rest|
  {
    match DecodeEntry(rest, end)
    case Err(e) => if e == Eof then Stop else Fail(e)
    case Ok((ent, after)) => Next(ent, AllYields(after, end))
  }

  /** The records `es` in order, followed by `tail`. */
  function Prefixed(es: seq<Entry>, tail: Run): Run
  {
    if es == [] then tail else Next(es[0], Prefixed(es[1..], tail))
  }

  /** The yields of a run, one per step. */
  function Flatten(run: Run): seq<Yield>
  {
    match run
    case Stop => []
    case Fail(e) => [Failure(e)]
    case Next(e, more) => [Item(e)] + Flatten(more)
  }

  /**
   * What a consumer actually receives: it is asked about each record with
   * the records seen so far, and the iteration ends right after the first
   * record it declines, or after an error.
   */
  function Consumed(run: Run, accept: seq<Entry> -> bool, seen: seq<Entry>): seq<Yield>
  {
    match run
    case Stop => []
    case Fail(e) => [Failure(e)]
    case Next(e, more) =>
      if accept(seen + [e]) then [Item(e)] + Consumed(more, accept, seen + [e]) else [Item(e)]
  }

  predicate NoEofFailure(run: Run)
  {
    match run
    case Stop => true
    case Fail(e) => e != Eof
    case Next(_, more) => NoEofFailure(more)
  }

  /** A plain end of data is never reported to the consumer as an error. */
  lemma {:induction false} YieldsShape(rest: seq<byte>, end: End)
    ensures NoEofFailure(AllYields(rest, end))
    decreases |rest|
  {
    var d := DecodeEntry(rest, end);
    if d.Ok? {
      YieldsShape(d.value.1, end);
    }
  }

  /** Records encoded back to back are yielded in order, before whatever follows them. */
  lemma {:induction false} YieldsOfRecords(es: seq<Entry>, tail: seq<byte>, end: End)
    requires forall i :: 0 <= i < |es| ==> Encodable(es[i])
    ensures AllYields(EncodeAll(es) + tail, end) == Prefixed(es, AllYields(tail, end))
    decreases es
  {
    if es == [] {
      assert EncodeAll(es) + tail == tail;
    } else {
      var after := EncodeAll(es[1..]) + tail;
      assert EncodeAll(es) + tail == EncodeEntry(es[0]) + after;
      DecodeEncodedEntry(es[0], after, end);
      YieldsOfRecords(es[1..], tail, end);
    }
  }

  /**
   * A stream that ends cleanly exactly at a record boundary yields its
   * records in order and stops quietly; the empty stream yields nothing.
   */
  lemma YieldsOfEncoding(es: seq<Entry>)
    requires forall i :: 0 <= i < |es| ==> Encodable(es[i])
    ensures AllYields(EncodeAll(es), CleanEnd) == Prefixed(es, Stop)
  {
    AppendEmpty(EncodeAll(es));
    YieldsOfRecords(es, [], CleanEnd);
  }

  /**
   * A read error other than end of data, after whole records, is yielded
   * once, unchanged, after those records.
   */
  lemma YieldsOfBrokenStream(es: seq<Entry>, code: nat)
    requires forall i :: 0 <= i < |es| ==> Encodable(es[i])
    ensures AllYields(EncodeAll(es), Broken(code)) == Prefixed(es, Fail(Failed(code)))
  {
    AppendEmpty(EncodeAll(es));
    YieldsOfRecords(es, [], Broken(code));
  }

  /** A record cut short after its first byte fails with `UnexpectedEof`. */
  lemma TruncatedRecord(last: Entry, cut: nat)
    requires Encodable(last) && 0 < cut < EncodedSize(last)
    ensures AllYields(EncodeEntry(last)[..cut], CleanEnd) == Fail(UnexpectedEof)
  {
    var partial := EncodeEntry(last)[..cut];
    var d := DecodeEntry(partial, CleanEnd);
    if d.Ok? {
      var (ent, after) := d.value;
      DecodedBytes(partial, CleanEnd);
      var k := EncodedSize(ent);
      assert EncodeEntry(last)[..k] == partial[..k] == EncodeEntry(ent);
      EncodingPrefixFree(ent, last);
      assert false;
    }
  }

  /**
   * A stream that ends cleanly part-way through a record, anywhere after
   * its first byte, yields the complete records before it and then
   * `UnexpectedEof`, never a quiet stop.
   */
  lemma YieldsOfTruncatedStream(es: seq<Entry>, last: Entry, cut: nat)
    requires forall i :: 0 <= i < |es| ==> Encodable(es[i])
    requires Encodable(last) && 0 < cut < EncodedSize(last)
    ensures AllYields(EncodeAll(es) + EncodeEntry(last)[..cut], CleanEnd) == Prefixed(es, Fail(UnexpectedEof))
  {
    YieldsOfRecords(es, EncodeEntry(last)[..cut], CleanEnd);
    TruncatedRecord(last, cut);
  }

  /**
   * A consumer gets a prefix of the full run: everything up to and
   * including the first record it declines.
   */
  lemma {:induction false} ConsumedIsPrefix(run: Run, accept: seq<Entry> -> bool, seen: seq<Entry>)
    ensures var r := Consumed(run, accept, seen); |r| <= |Flatten(run)| && r == Flatten(run)[..|r|]
    decreases run
  {
    if run.Next? && accept(seen + [run.entry]) {
      ConsumedIsPrefix(run.more, accept, seen + [run.entry]);
    }
  }

  /** A consumer that accepts every record gets the whole run. */
  lemma {:induction false} ConsumedAll(run: Run, accept: seq<Entry> -> bool, seen: seq<Entry>)
    requires forall s :: accept(s)
    ensures Consumed(run, accept, seen) == Flatten(run)
    decreases run
  {
    if run.Next? {
      ConsumedAll(run.more, accept, seen + [run.entry]);
    }
  }

  /** `readData` over the consuming reader. */
  method ReadData(r: Reader) returns (res: Result<seq<byte>, IoError>)
    modifies r
    ensures var d := ReadDataFrom(old(r.rest), r.end);
      (d.Ok? ==> res == Ok(d.value.0) && r.rest == d.value.1) && (d.Err? ==> res == Err(d.error))
  {
    var lb := r.ReadFull(2);
    if lb.Err? {
      return Err(lb.error);
    }
    var l := DecodeU16(lb.value, BigEndian);
    var b := r.ReadFull(l);
    if b.Err? {
      return Err(b.error);
    }
    return Ok(b.value);
  }

  /**
   * `readXauthorityEntry`: fills the record field by field from the
   * reader; on success the reader sits just after the record.
   */
  method ReadXauthorityEntry(r: Reader) returns (res: Result<Entry, IoError>)
    modifies r
    ensures var d := DecodeEntry(old(r.rest), r.end);
      (d.Ok? ==> res == Ok(d.value.0) && r.rest == d.value.1) && (d.Err? ==> res == Err(d.error))
  {
    var fb := r.ReadFull(2);
    if fb.Err? {
      return Err(fb.error);
    }
    var family := DecodeU16(fb.value, BigEndian);
    var address := ReadData(r);
    if address.Err? {
      return Err(WrapErr(address.error));
    }
    var number := ReadData(r);
    if number.Err? {
      return Err(WrapErr(number.error));
    }
    var name := ReadData(r);
    if name.Err? {
      return Err(WrapErr(name.error));
    }
    var data := ReadData(r);
    if data.Err? {
      return Err(WrapErr(data.error));
    }
    return Ok(Entry(family, address.value, number.value, name.value, data.value));
  }

  /**
   * One round of `parseXauthority`: reads a record and hands it to the
   * consumer, or ends the iteration on an error (yielded unless it is
   * `Eof`). `stop` says the iteration is over.
   */
  method YieldNext(r: Reader, accept: seq<Entry> -> bool, seen: seq<Entry>) returns (ys: seq<Yield>, seen': seq<Entry>, stop: bool)
    modifies r
    ensures Consumed(AllYields(old(r.rest), r.end), accept, seen)
      == ys + if stop then [] else Consumed(AllYields(r.rest, r.end), accept, seen')
    ensures !stop ==> |r.rest| < |old(r.rest)|
  {
    ghost var run := AllYields(r.rest, r.end);
    var ent := ReadXauthorityEntry(r);
    if ent.Err? {
      ys := if ent.error == Eof then [] else [Failure(ent.error)];
      AppendEmpty(ys);
      return ys, seen, true;
    }
    assert run == Next(ent.value, AllYields(r.rest, r.end));
    seen' := seen + [ent.value];
    stop := !accept(seen');
    ys := [Item(ent.value)];
    AppendEmpty(ys);
  }

  /**
   * `parseXauthority` driven by a consumer: the yields the consumer
   * receives are exactly `Consumed(AllYields(..))`. Where the reader stops
   * is not specified (the source reads through a buffered reader, which
   * may read ahead).
   */
  method ParseXauthority(r: Reader, accept: seq<Entry> -> bool) returns (ys: seq<Yield>)
    modifies r
    ensures ys == Consumed(AllYields(old(r.rest), r.end), accept, [])
  {
    ys := [];
    var seen: seq<Entry> := [];
    var stop := false;
    AppendEmpty(Consumed(AllYields(r.rest, r.end), accept, seen));
    while !stop
      invariant Consumed(AllYields(old(r.rest), r.end), accept, [])
        == ys + if stop then [] else Consumed(AllYields(r.rest, r.end), accept, seen)
      decreases !stop, |r.rest|
    {
      var more;
      more, seen, stop := YieldNext(r, accept, seen);
      AppendAssoc(ys, more, if stop then [] else Consumed(AllYields(r.rest, r.end), accept, seen));
      ys := ys + more;
    }
    AppendEmpty(ys);
  }

  // ---------------------------------------------------------------
  // The three records of x11/test-data/Xauthority
  // ---------------------------------------------------------------

  const Cookie: seq<byte> := Ascii("MIT-MAGIC-COOKIE-1")

  /** `localhost/unix:1` (family 256, local). */
  const LocalEntry := Entry(0x0100, Ascii("localhost"), Ascii("1"), Cookie,
    [0x11, 0x11, 0x22, 0x22, 0x33, 0x33, 0x44, 0x44, 0x55, 0x55, 0x66, 0x66, 0x77, 0x77, 0x88, 0x88])

  /** `192.0.2.1:2` (family 0, IPv4). */
  const Inet4Entry := Entry(0x0000, [192, 0, 2, 1], Ascii("2"), Cookie,
    [0x22, 0x22, 0x33, 0x33, 0x44, 0x44, 0x55, 0x55, 0x66, 0x66, 0x77, 0x77, 0x88, 0x88, 0x99, 0x99])

  /** `[2001:db8::1]:1` (family 6, IPv6). */
  const Inet6Entry := Entry(0x0006, [0x20, 0x01, 0x0d, 0xb8, 0, 0, 0, 0, 0, 0, 0, 0, 0, 0, 0, 1], Ascii("1"), Cookie,
    [0x33, 0x33, 0x44, 0x44, 0x55, 0x55, 0x66, 0x66, 0x77, 0x77, 0x88, 0x88, 0x99, 0x99, 0xaa, 0xaa])

  const Fixture: seq<Entry> := [LocalEntry, Inet4Entry, Inet6Entry]

  /**
   * The encoding of the three records of xau_test.go (one local, one IPv4,
   * one IPv6 display) decodes to exactly those records, in order, with no
   * error: an instance of `YieldsOfEncoding`.
   */
  lemma FixtureDecodes()
    ensures forall i :: 0 <= i < |Fixture| ==> Encodable(Fixture[i])
    ensures Flatten(AllYields(EncodeAll(Fixture), CleanEnd))
      == [Item(LocalEntry), Item(Inet4Entry), Item(Inet6Entry)]
  {
    assert Encodable(LocalEntry) && Encodable(Inet4Entry) && Encodable(Inet6Entry);
    YieldsOfEncoding(Fixture);
    var run := Next(LocalEntry, Next(Inet4Entry, Next(Inet6Entry, Stop)));
    assert Prefixed([Inet6Entry], Stop) == Next(Inet6Entry, Stop) by {
      assert [Inet6Entry][1..] == [];
    }
    assert Prefixed([Inet4Entry, Inet6Entry], Stop) == run.more by {
      assert [Inet4Entry, Inet6Entry][1..] == [Inet6Entry];
    }
    assert Prefixed(Fixture, Stop) == run by {
      assert Fixture[1..] == [Inet4Entry, Inet6Entry];
    }
    assert Flatten(run) == [Item(LocalEntry), Item(Inet4Entry), Item(Inet6Entry)];
  }
}
