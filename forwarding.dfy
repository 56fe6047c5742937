/**
 * Setting up X11 forwarding for a session (x11/x11.go): the real cookie
 * is the data of the last record `xauth extract` prints for the display,
 * a pseudo cookie is announced to the server in hexadecimal, and every
 * forwarded connection is then checked against the pseudo cookie and
 * rewritten to carry the real one.
 */
module Forwarding {
  import opened Base
  import opened Stream
  import opened Xau
  import opened CookieExchange

  /** Why no cookie came out of `xauth`. */
  datatype CookieError = ReadError(io: IoError) | NotFound

  /**
   * The cookie-selection loop of `queryCookie` over what the iterator
   * yields: every record overwrites the cookie, the first error aborts, and
   * no record at all is "Cookie not found." A record with empty data still
   * counts as found (its data is an empty, non-nil slice).
   */
  function SelectCookie(ys: seq<Yield>, cookie: Option<seq<byte>>): (r: Result<seq<byte>, CookieError>)
    decreases |ys|
  {
    if ys == [] then (if cookie.None? then Err(NotFound) else Ok(cookie.value))
    else
      match ys[0]
      case Failure(e) => Err(ReadError(e))
      case Item(ent) => SelectCookie(ys[1..], Some(ent.data))
  }

  /** `queryCookie` as a function of the output of `xauth extract - <display>`. */
  function QueryCookieFrom(out: seq<byte>, end: End): Result<seq<byte>, CookieError>
  {
    SelectCookie(Flatten(AllYields(out, end)), None)
  }

  /** A consumer of the iterator that never stops it early. */
  function AcceptAll(seen: seq<Entry>): bool
  {
    true
  }

  /** `queryCookie`: ranges over `parseXauthority` and keeps the last record's data. */
  method QueryCookie(r: Reader) returns (res: Result<seq<byte>, CookieError>)
    modifies r
    ensures res == QueryCookieFrom(old(r.rest), r.end)
  {
    ghost var run := AllYields(r.rest, r.end);
    var ys := ParseXauthority(r, AcceptAll);
    ConsumedAll(run, AcceptAll, []);
    var cookie: Option<seq<byte>> := None;
    var i := 0;
    while i < |ys|
      invariant 0 <= i <= |ys|
      invariant SelectCookie(ys, None) == SelectCookie(ys[i..], cookie)
    {
      assert ys[i..][1..] == ys[i + 1..];
      match ys[i]
      case Failure(e) =>
        return Err(ReadError(e));
      case Item(ent) =>
        cookie := Some(ent.data);
      i := i + 1;
    }
    if cookie.None? {
      return Err(NotFound);
    }
    return Ok(cookie.value);
  }

  /** The cookie a run of records ends with: the last record's data, or the run's error. */
  lemma {:induction false} SelectOfRecords(es: seq<Entry>, tail: Run, cookie: Option<seq<byte>>)
    ensures SelectCookie(Flatten(Prefixed(es, tail)), cookie)
      == SelectCookie(Flatten(tail), if es == [] then cookie else Some(es[|es| - 1].data))
    decreases es
  {
    if es != [] {
      var ys := Flatten(Prefixed(es, tail));
      assert ys[1..] == Flatten(Prefixed(es[1..], tail));
      SelectOfRecords(es[1..], tail, Some(es[0].data));
      if |es| > 1 {
        assert es[1..][|es[1..]| - 1] == es[|es| - 1];
      }
    }
  }

  /** The last record of a well-formed authority listing wins; none at all is "not found". */
  lemma CookieOfListing(es: seq<Entry>)
    requires forall i :: 0 <= i < |es| ==> Encodable(es[i])
    ensures QueryCookieFrom(EncodeAll(es), CleanEnd) == if es == [] then Err(NotFound) else Ok(es[|es| - 1].data)
  {
    YieldsOfEncoding(es);
    SelectOfRecords(es, Stop, None);
  }

  /** A listing cut short inside a record gives `UnexpectedEof`, whatever records came before. */
  lemma CookieOfTruncatedListing(es: seq<Entry>, last: Entry, cut: nat)
    requires forall i :: 0 <= i < |es| ==> Encodable(es[i])
    requires Encodable(last) && 0 < cut < EncodedSize(last)
    ensures QueryCookieFrom(EncodeAll(es) + EncodeEntry(last)[..cut], CleanEnd) == Err(ReadError(UnexpectedEof))
  {
    YieldsOfTruncatedStream(es, last, cut);
    SelectOfRecords(es, Fail(UnexpectedEof), None);
  }

  /** A read error aborts the query with that error, whatever records came before. */
  lemma CookieOfBrokenListing(es: seq<Entry>, code: nat)
    requires forall i :: 0 <= i < |es| ==> Encodable(es[i])
    ensures QueryCookieFrom(EncodeAll(es), Broken(code)) == Err(ReadError(Failed(code)))
  {
    YieldsOfBrokenStream(es, code);
    SelectOfRecords(es, Fail(Failed(code)), None);
  }

  /** A lowercase hexadecimal digit, as `encoding/hex` writes it. */
  function HexDigit(v: nat): (c: char)
    requires v < 16
    ensures HexValue(c) == Some(v)
  {
    "0123456789abcdef"[v]
  }

  /** The value of a lowercase hexadecimal digit. */
  function HexValue(c: char): (r: Option<nat>)
    ensures r.Some? ==> r.value < 16
  {
    if '0' <= c <= '9' then Some(c as int - '0' as int)
    else if 'a' <= c <= 'f' then Some(c as int - 'a' as int + 10)
    else None
  }

  /** `hex.EncodeToString`: two digits per byte, high nibble first. */
  function HexEncode(b: seq<byte>): (s: string)
    ensures |s| == 2 * |b|
  {
    if b == [] then "" else [HexDigit(b[0] / 16), HexDigit(b[0] % 16)] + HexEncode(b[1..])
  }

  /** The inverse of `HexEncode` (what the server does with the announced cookie). */
  function HexDecode(s: string): (r: Option<seq<byte>>)
    ensures r.Some? ==> 2 * |r.value| == |s|
    decreases |s|
  {
    if s == [] then Some([])
    else if |s| == 1 then None
    else
      match (HexValue(s[0]), HexValue(s[1]), HexDecode(s[2..]))
      case (Some(hi), Some(lo), Some(more)) => Some([hi * 16 + lo] + more)
      case _ => None
  }

  /** The announced cookie decodes back to the pseudo cookie. */
  lemma {:induction false} HexRoundTrip(b: seq<byte>)
    ensures HexDecode(HexEncode(b)) == Some(b)
    decreases b
  {
    if b != [] {
      var s := HexEncode(b);
      assert s[2..] == HexEncode(b[1..]);
      HexRoundTrip(b[1..]);
      assert [b[0] / 16 * 16 + b[0] % 16] + b[1..] == b;
    }
  }

  /** The payload of the `x11-req` channel request. */
  datatype X11Request = X11Request(singleConnection: bool, authProtocol: string, authCookie: string, screenNumber: nat)

  /** Why `ForwardX11` gave up. */
  datatype ForwardError =
    | NoCookie(cookie: CookieError)   // `queryCookie` failed
    | SendFailed(reason: string)      // the request could not be sent
    | RequestRefused                  // the server answered no: "Failed to x11-req"

  /** What a session ends up with: nothing to forward, or forwarding set up with both cookies. */
  datatype Setup = NoDisplay | Enabled(request: X11Request, rcookie: seq<byte>, pcookie: seq<byte>)

  /**
   * `ForwardX11`: nothing when there is no display; otherwise the real
   * cookie from `xauth`, the request announcing the pseudo cookie, and the
   * server's answer (`reply`, the outcome of `SendRequest`). The pseudo
   * cookie is a parameter (it comes from the system's random source).
   */
  function ForwardX11(display: string, xauthOut: seq<byte>, xauthEnd: End, pcookie: seq<byte>, reply: Result<bool, string>)
    : (r: Result<Setup, ForwardError>)
    ensures display == "" <==> r == Ok(NoDisplay)
    ensures r.Ok? && display != "" ==> (r.value.Enabled? && r.value.pcookie == pcookie
      && Ok(r.value.rcookie) == QueryCookieFrom(xauthOut, xauthEnd) && reply == Ok(true))
    ensures display != "" && QueryCookieFrom(xauthOut, xauthEnd).Err? ==> r == Err(NoCookie(QueryCookieFrom(xauthOut, xauthEnd).error))
  {
    if display == "" then Ok(NoDisplay)
    else
      match QueryCookieFrom(xauthOut, xauthEnd)
      case Err(e) => Err(NoCookie(e))
      case Ok(rcookie) =>
        var request := X11Request(false, "MIT-MAGIC-COOKIE-1", HexEncode(pcookie), 0);
        match reply
        case Err(reason) => Err(SendFailed(reason))
        case Ok(false) => Err(RequestRefused)
        case Ok(true) => Ok(Enabled(request, rcookie, pcookie))
  }

  /**
   * The request announces `MIT-MAGIC-COOKIE-1` with a cookie that decodes
   * to the pseudo cookie, for several connections and screen 0.
   */
  lemma RequestAnnouncesPseudoCookie(display: string, xauthOut: seq<byte>, xauthEnd: End, pcookie: seq<byte>, reply: Result<bool, string>)
    requires ForwardX11(display, xauthOut, xauthEnd, pcookie, reply).Ok? && display != ""
    ensures var req := ForwardX11(display, xauthOut, xauthEnd, pcookie, reply).value.request;
      !req.singleConnection && req.authProtocol == "MIT-MAGIC-COOKIE-1" && req.screenNumber == 0
      && HexDecode(req.authCookie) == Some(pcookie)
  {
    HexRoundTrip(pcookie);
  }

  /**
   * End to end: once forwarding is set up, an X client that presents the
   * announced cookie under `MIT-MAGIC-COOKIE-1` has its prefix passed on to
   * the display with the last `xauth` record's cookie in its place.
   */
  lemma AnnouncedCookieIsExchanged(display: string, xauthOut: seq<byte>, xauthEnd: End, pcookie: seq<byte>,
                                   reply: Result<bool, string>, order: ByteOrder, unused: byte, major: u16, minor: u16,
                                   tail: seq<byte>, end: End)
    requires ForwardX11(display, xauthOut, xauthEnd, pcookie, reply).Ok? && display != ""
    requires |pcookie| < 0x1_0000
    requires |ForwardX11(display, xauthOut, xauthEnd, pcookie, reply).value.rcookie| < 0x1_0000
    ensures var s := ForwardX11(display, xauthOut, xauthEnd, pcookie, reply).value;
      HexDecode(s.request.authCookie) == Some(s.pcookie) &&
      ForwardAuthFrom(ClientPrefix(order, unused, major, minor, MagicCookieName, s.pcookie) + tail, end, s.rcookie, s.pcookie)
        == Ok((ClientPrefix(order, unused, major, minor, MagicCookieName, s.rcookie), tail))
  {
    var s := ForwardX11(display, xauthOut, xauthEnd, pcookie, reply).value;
    HexRoundTrip(pcookie);
    ExchangeOfClientPrefix(order, unused, major, minor, MagicCookieName, pcookie, tail, end, s.rcookie, pcookie);
  }
}
