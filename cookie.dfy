/**
 * The X11 authorization rewrite done on every forwarded X connection
 * (`forwardX11Auth` in x11/x11.go).
 *
 * The client starts with the connection-setup prefix of the X Window
 * System protocol (section "Connection Setup" of its encoding): a byte-order
 * byte, an unused byte, the protocol major and minor versions, the lengths
 * n and d of the authorization name and data, two unused bytes, then the
 * name and the data, each padded to a multiple of 4. The client was given a
 * pseudo cookie; the prefix is accepted only if it carries that cookie
 * under `MIT-MAGIC-COOKIE-1`, and is then rewritten to carry the real
 * cookie of the local display.
 */
module CookieExchange {
  import opened Base
  import opened Stream

  /** `pad(E) = (4 - (E mod 4)) mod 4`, on a 16-bit length. */
  function Pad(e: u16): (p: nat)
    ensures p < 4 && (e + p) % 4 == 0
    ensures e % 4 == 0 ==> p == 0
  {
    (4 - e % 4) % 4
  }

  /** A length and its padding. */
  function Padded(e: u16): (n: nat)
    ensures n % 4 == 0 && e <= n < e + 4
  {
    e + Pad(e)
  }

  /** The length of the connection-setup header. */
  const HeaderSize: nat := 12

  /** The only authorization protocol accepted: `MIT-MAGIC-COOKIE-1` in ASCII. */
  const MagicCookieName: seq<byte> :=
    [0x4d, 0x49, 0x54, 0x2d, 0x4d, 0x41, 0x47, 0x49, 0x43, 0x2d, 0x43, 0x4f, 0x4f, 0x4b, 0x49, 0x45, 0x2d, 0x31]

  lemma MagicCookieNameIsAscii()
    ensures MagicCookieName == Ascii("MIT-MAGIC-COOKIE-1")
  {
  }

  /** Why a prefix is refused. */
  datatype AuthError =
    | ReadFailed(io: IoError)              // the prefix could not be read in full
    | BadByteOrder(byteOrder: byte)        // first byte neither 'B' nor 'l'
    | UnsupportedProtocol(name: seq<byte>) // not MIT-MAGIC-COOKIE-1
    | CookieMismatch                       // not the pseudo cookie handed out

  /** The byte order announced by the first byte: 0x42 ('B') or 0x6c ('l'). */
  function ByteOrderOf(b: byte): (r: Option<ByteOrder>)
    ensures r == Some(BigEndian) <==> b == 0x42
    ensures r == Some(LittleEndian) <==> b == 0x6c
    ensures r.None? <==> b != 0x42 && b != 0x6c
  {
    if b == 0x42 then Some(BigEndian)
    else if b == 0x6c then Some(LittleEndian)
    else None
  }

  /** The byte a client sends to announce `order`. */
  function OrderByte(order: ByteOrder): (b: byte)
    ensures ByteOrderOf(b) == Some(order)
  {
    match order
    case BigEndian => 0x42
    case LittleEndian => 0x6c
  }

  /** The name length (bytes 6-7) of a header. */
  function NameLength(h: seq<byte>, order: ByteOrder): u16
    requires |h| == HeaderSize
  {
    DecodeU16(h[6..8], order)
  }

  /** The data length (bytes 8-9) of a header. */
  function DataLength(h: seq<byte>, order: ByteOrder): u16
    requires |h| == HeaderSize
  {
    DecodeU16(h[8..10], order)
  }

  /**
   * The prefix sent on to the display: header bytes 0-7 unchanged, the
   * real cookie's length as 16 bits in the client's order, two zero bytes,
   * the padded name as received, the real cookie, and zero padding. As in
   * the source, the length is `uint16(len(rcookie))`, truncated to 16 bits.
   */
  function Rewritten(h: seq<byte>, order: ByteOrder, paddedName: seq<byte>, rcookie: seq<byte>): seq<byte>
    requires |h| == HeaderSize
  {
    var len := Truncate16(|rcookie|);
    h[..8] + EncodeU16(len, order) + Zeros(2) + paddedName + rcookie + Zeros(Pad(len))
  }

  /** The rewritten prefix keeps the 4-byte alignment of the protocol, whatever the cookie's length. */
  lemma RewrittenAligned(h: seq<byte>, order: ByteOrder, paddedName: seq<byte>, rcookie: seq<byte>)
    requires |h| == HeaderSize && |paddedName| % 4 == 0
    ensures |Rewritten(h, order, paddedName, rcookie)| % 4 == 0
  {
    var len := Truncate16(|rcookie|);
    var q := |rcookie| / 0x1_0000;
    assert |rcookie| == q * 0x1_0000 + len;
    assert |paddedName| == 4 * (|paddedName| / 4);
    assert Padded(len) == 4 * (Padded(len) / 4);
    assert |Rewritten(h, order, paddedName, rcookie)|
      == 4 * (3 + |paddedName| / 4 + q * 0x4000 + Padded(len) / 4);
  }

  /** The bytes that follow the header: the padded name and the padded data. */
  function BodySize(h: seq<byte>, order: ByteOrder): nat
    requires |h| == HeaderSize
  {
    Padded(NameLength(h, order)) + Padded(DataLength(h, order))
  }

  /**
   * The checks on a complete prefix: the name must be
   * `MIT-MAGIC-COOKIE-1`, checked first, then the data must be the pseudo
   * cookie; only then is the rewritten prefix produced.
   */
  function CheckPrefix(h: seq<byte>, order: ByteOrder, b2: seq<byte>, rcookie: seq<byte>, pcookie: seq<byte>)
    : (r: Result<seq<byte>, AuthError>)
    requires |h| == HeaderSize && |b2| == BodySize(h, order)
    ensures r.Ok? <==> (b2[..NameLength(h, order)] == MagicCookieName
      && b2[Padded(NameLength(h, order))..Padded(NameLength(h, order)) + DataLength(h, order)] == pcookie)
    ensures b2[..NameLength(h, order)] != MagicCookieName ==> r == Err(UnsupportedProtocol(b2[..NameLength(h, order)]))
    ensures r.Err? && b2[..NameLength(h, order)] == MagicCookieName ==> r == Err(CookieMismatch)
    ensures r.Ok? ==> |r.value| % 4 == 0
  {
    var n := NameLength(h, order);
    var d := DataLength(h, order);
    if b2[..n] != MagicCookieName then Err(UnsupportedProtocol(b2[..n]))
    else if b2[Padded(n)..Padded(n) + d] != pcookie then Err(CookieMismatch)
    else
      RewrittenAligned(h, order, b2[..Padded(n)], rcookie);
      Ok(Rewritten(h, order, b2[..Padded(n)], rcookie))
  }

  /** A prefix as read off the wire: header, announced byte order, padded name and data. */
  datatype RawPrefix = RawPrefix(header: seq<byte>, order: ByteOrder, body: seq<byte>)

  predicate ValidRaw(p: RawPrefix)
  {
    |p.header| == HeaderSize && |p.body| == BodySize(p.header, p.order)
  }

  /**
   * The reading half of `forwardX11Auth`: the 12-byte header, its byte
   * order, then exactly the padded name and data it announces; gives the
   * prefix and the bytes after it. A short header or body is a read
   * failure.
   */
  function ReadPrefixFrom(rest: seq<byte>, end: End): (r: Result<(RawPrefix, seq<byte>), AuthError>)
    ensures |rest| < HeaderSize ==> r == Err(ReadFailed(EndError(end, |rest| == 0)))
    ensures |rest| >= HeaderSize && ByteOrderOf(rest[0]).None? ==> r == Err(BadByteOrder(rest[0]))
    ensures r.Ok? ==> ValidRaw(r.value.0) && ByteOrderOf(rest[0]) == Some(r.value.0.order)
    ensures r.Ok? ==> |r.value.1| == |rest| - HeaderSize - |r.value.0.body|
    ensures r.Err? ==> r.error.ReadFailed? || r.error.BadByteOrder?
  {
    match ReadFullFrom(rest, end, HeaderSize)
    case Err(e) => Err(ReadFailed(e))
    case Ok((h, r1)) =>
      assert h == rest[..HeaderSize];
      match ByteOrderOf(h[0])
      case None => Err(BadByteOrder(h[0]))
      case Some(order) =>
        match ReadFullFrom(r1, end, BodySize(h, order))
        case Err(e) => Err(ReadFailed(e))
        case Ok((b2, r2)) => Ok((RawPrefix(h, order, b2), r2))
  }

  /**
   * `forwardX11Auth` as a function of the bytes the client has yet to
   * send: the rewritten prefix and the bytes after the client's prefix, or
   * why it was refused.
   */
  function ForwardAuthFrom(rest: seq<byte>, end: End, rcookie: seq<byte>, pcookie: seq<byte>)
    : (r: Result<(seq<byte>, seq<byte>), AuthError>)
    ensures r.Ok? ==> ReadPrefixFrom(rest, end).Ok? && |r.value.0| % 4 == 0
  {
    match ReadPrefixFrom(rest, end)
    case Err(e) => Err(e)
    case Ok((p, after)) =>
      match CheckPrefix(p.header, p.order, p.body, rcookie, pcookie)
      case Err(e) => Err(e)
      case Ok(out) => Ok((out, after))
  }

  /** Proof helper for the padding loops of `WriteRewritten`: zero padding grows one byte at a time. */
  lemma ZerosSnoc(n: nat)
    ensures Zeros(n) + [0] == Zeros(n + 1)
  {
  }

  /** The successive writes to the output buffer once the prefix is accepted. */
  method WriteRewritten(h: seq<byte>, order: ByteOrder, paddedName: seq<byte>, rcookie: seq<byte>)
    returns (w: seq<byte>)
    requires |h| == HeaderSize
    ensures w == Rewritten(h, order, paddedName, rcookie)
  {
    var len := Truncate16(|rcookie|);
    w := h[..8];
    w := w + EncodeU16(len, order);
    var i := 0;
    while i < 2
      invariant 0 <= i <= 2
      invariant w == h[..8] + EncodeU16(len, order) + Zeros(i)
    {
      ZerosSnoc(i);
      w := w + [0];
      i := i + 1;
    }
    w := w + paddedName;
    w := w + rcookie;
    var p := Pad(len);
    var prefix := w;
    i := 0;
    while i < p
      invariant 0 <= i <= p
      invariant w == prefix + Zeros(i)
    {
      ZerosSnoc(i);
      w := w + [0];
      i := i + 1;
    }
  }

  /** The reading half of `forwardX11Auth` over the channel's reader. */
  method ReadPrefix(r: Reader) returns (res: Result<RawPrefix, AuthError>)
    modifies r
    ensures var f := ReadPrefixFrom(old(r.rest), r.end);
      (f.Ok? ==> res == Ok(f.value.0) && r.rest == f.value.1) && (f.Err? ==> res == Err(f.error))
  {
    var head := r.ReadFull(HeaderSize);
    if head.Err? {
      return Err(ReadFailed(head.error));
    }
    var b := head.value;
    var order: ByteOrder;
    if b[0] == 0x42 {
      order := BigEndian;
    } else if b[0] == 0x6c {
      order := LittleEndian;
    } else {
      return Err(BadByteOrder(b[0]));
    }
    var n := DecodeU16(b[6..8], order);
    var d := DecodeU16(b[8..10], order);
    var body := r.ReadFull(n + Pad(n) + d + Pad(d));
    if body.Err? {
      return Err(ReadFailed(body.error));
    }
    return Ok(RawPrefix(b, order, body.value));
  }

  /**
   * `forwardX11Auth` over the channel's reader: reads the prefix, checks
   * the name and then the data, and builds the rewritten prefix.
   */
  method ForwardX11Auth(r: Reader, rcookie: seq<byte>, pcookie: seq<byte>) returns (res: Result<seq<byte>, AuthError>)
    modifies r
    ensures var f := ForwardAuthFrom(old(r.rest), r.end, rcookie, pcookie);
      (f.Ok? ==> res == Ok(f.value.0) && r.rest == f.value.1) && (f.Err? ==> res == Err(f.error))
  {
    var raw := ReadPrefix(r);
    if raw.Err? {
      return Err(raw.error);
    }
    var b, order, b2 := raw.value.header, raw.value.order, raw.value.body;
    var n := DecodeU16(b[6..8], order);
    var d := DecodeU16(b[8..10], order);
    var name := b2[0..n];
    var data := b2[n + Pad(n)..n + Pad(n) + d];
    if name != MagicCookieName {
      return Err(UnsupportedProtocol(name));
    }
    if data != pcookie {
      return Err(CookieMismatch);
    }
    var w := WriteRewritten(b, order, b2[..n + Pad(n)], rcookie);
    return Ok(w);
  }

  /** The 12-byte header a client sends. */
  function SetupHeader(order: ByteOrder, unused: byte, major: u16, minor: u16, n: u16, d: u16): (h: seq<byte>)
    ensures |h| == HeaderSize
  {
    [OrderByte(order), unused] + EncodeU16(major, order) + EncodeU16(minor, order)
      + EncodeU16(n, order) + EncodeU16(d, order) + Zeros(2)
  }

  /** A field followed by its zero padding. */
  function PaddedField(f: seq<byte>): (r: seq<byte>)
    requires |f| < 0x1_0000
    ensures |r| == Padded(|f|)
  {
    f + Zeros(Pad(|f|))
  }

  /**
   * The connection-setup prefix a client sends: the header, then the
   * padded authorization name and data.
   */
  function ClientPrefix(order: ByteOrder, unused: byte, major: u16, minor: u16, name: seq<byte>, data: seq<byte>): seq<byte>
    requires |name| < 0x1_0000 && |data| < 0x1_0000
  {
    SetupHeader(order, unused, major, minor, |name|, |data|) + (PaddedField(name) + PaddedField(data))
  }

  /** The header's fields read back in the order it announces. */
  lemma HeaderFields(order: ByteOrder, unused: byte, major: u16, minor: u16, n: u16, d: u16)
    ensures var h := SetupHeader(order, unused, major, minor, n, d);
      ByteOrderOf(h[0]) == Some(order) && NameLength(h, order) == n && DataLength(h, order) == d
  {
    var h := SetupHeader(order, unused, major, minor, n, d);
    assert h[6..8] == EncodeU16(n, order);
    assert h[8..10] == EncodeU16(d, order);
  }

  /** Two headers that differ only in the data length agree on bytes 0-7. */
  lemma HeaderStart(order: ByteOrder, unused: byte, major: u16, minor: u16, n: u16, d: u16, d': u16)
    ensures SetupHeader(order, unused, major, minor, n, d)[..8] == SetupHeader(order, unused, major, minor, n, d')[..8]
  {
  }

  /** The padded name and data of a client prefix, split back. */
  lemma BodyFields(name: seq<byte>, data: seq<byte>)
    requires |name| < 0x1_0000 && |data| < 0x1_0000
    ensures var b2 := PaddedField(name) + PaddedField(data); var n := |name|;
      b2[..n] == name && b2[..Padded(n)] == PaddedField(name) && b2[Padded(n)..Padded(n) + |data|] == data
  {
    var b2 := PaddedField(name) + PaddedField(data);
    assert b2[..|name|] == PaddedField(name)[..|name|];
    assert b2[Padded(|name|)..Padded(|name|) + |data|] == PaddedField(data)[..|data|];
  }

  /** A client's prefix is read whole, and nothing after it is. */
  lemma ReadClientPrefix(order: ByteOrder, unused: byte, major: u16, minor: u16,
                         name: seq<byte>, data: seq<byte>, tail: seq<byte>, end: End)
    requires |name| < 0x1_0000 && |data| < 0x1_0000
    ensures ReadPrefixFrom(ClientPrefix(order, unused, major, minor, name, data) + tail, end)
      == Ok((RawPrefix(SetupHeader(order, unused, major, minor, |name|, |data|), order,
                       PaddedField(name) + PaddedField(data)), tail))
  {
    var h := SetupHeader(order, unused, major, minor, |name|, |data|);
    var body := PaddedField(name) + PaddedField(data);
    assert ClientPrefix(order, unused, major, minor, name, data) + tail == h + (body + tail);
    ReadFullPrefix(h, body + tail, end);
    HeaderFields(order, unused, major, minor, |name|, |data|);
    ReadFullPrefix(body, tail, end);
  }

  /** The checks on a client's prefix, and the prefix with the real cookie that passes them. */
  lemma CheckClientPrefix(order: ByteOrder, unused: byte, major: u16, minor: u16,
                          name: seq<byte>, data: seq<byte>, rcookie: seq<byte>, pcookie: seq<byte>)
    requires |name| < 0x1_0000 && |data| < 0x1_0000 && |rcookie| < 0x1_0000
    ensures var r := CheckPrefix(SetupHeader(order, unused, major, minor, |name|, |data|), order,
                                 PaddedField(name) + PaddedField(data), rcookie, pcookie);
      (name != MagicCookieName ==> r == Err(UnsupportedProtocol(name)))
      && (name == MagicCookieName && data != pcookie ==> r == Err(CookieMismatch))
      && (name == MagicCookieName && data == pcookie ==> r == Ok(ClientPrefix(order, unused, major, minor, name, rcookie)))
  {
    HeaderFields(order, unused, major, minor, |name|, |data|);
    BodyFields(name, data);
    if name == MagicCookieName && data == pcookie {
      RewrittenClientPrefix(order, unused, major, minor, name, data, rcookie);
    }
  }

  /** The rewrite of a client's prefix is the prefix the client would send with the real cookie. */
  lemma RewrittenClientPrefix(order: ByteOrder, unused: byte, major: u16, minor: u16,
                              name: seq<byte>, data: seq<byte>, rcookie: seq<byte>)
    requires |name| < 0x1_0000 && |data| < 0x1_0000 && |rcookie| < 0x1_0000
    ensures Rewritten(SetupHeader(order, unused, major, minor, |name|, |data|), order, PaddedField(name), rcookie)
      == ClientPrefix(order, unused, major, minor, name, rcookie)
  {
    var h := SetupHeader(order, unused, major, minor, |name|, |data|);
    HeaderStart(order, unused, major, minor, |name|, |data|, |rcookie|);
    var h' := SetupHeader(order, unused, major, minor, |name|, |rcookie|);
    assert h' == h'[..8] + EncodeU16(|rcookie|, order) + Zeros(2);
    var pn := PaddedField(name);
    calc {
      Rewritten(h, order, pn, rcookie);
      (h'[..8] + EncodeU16(|rcookie|, order) + Zeros(2)) + pn + rcookie + Zeros(Pad(|rcookie|));
      h' + (pn + PaddedField(rcookie));
    }
  }

  /**
   * On a client's prefix the exchange does exactly three things: it
   * refuses any name but `MIT-MAGIC-COOKIE-1`; with that name it refuses
   * any data but the pseudo cookie; otherwise it passes on the same prefix
   * with the real cookie in place of the pseudo cookie (bytes 10-11 become
   * zero), and leaves everything after the prefix unread.
   */
  lemma ExchangeOfClientPrefix(order: ByteOrder, unused: byte, major: u16, minor: u16,
                               name: seq<byte>, data: seq<byte>, tail: seq<byte>, end: End,
                               rcookie: seq<byte>, pcookie: seq<byte>)
    requires |name| < 0x1_0000 && |data| < 0x1_0000 && |rcookie| < 0x1_0000
    ensures var r := ForwardAuthFrom(ClientPrefix(order, unused, major, minor, name, data) + tail, end, rcookie, pcookie);
      (name != MagicCookieName ==> r == Err(UnsupportedProtocol(name)))
      && (name == MagicCookieName && data != pcookie ==> r == Err(CookieMismatch))
      && (name == MagicCookieName && data == pcookie ==>
            r == Ok((ClientPrefix(order, unused, major, minor, name, rcookie), tail)))
  {
    ReadClientPrefix(order, unused, major, minor, name, data, tail, end);
    CheckClientPrefix(order, unused, major, minor, name, data, rcookie, pcookie);
  }
}
