/**
 * X display names (`[host]:number[.screen]`, as xauth's `parsedpy.c`
 * reads them) and where a display is reached (x11/x11.go).
 *
 * The source matches the name against a regular expression whose host
 * part is any text without a line break; since the number and screen that
 * follow contain no ':', the host always ends at the LAST ':' of the name.
 * The grammar is written out directly here.
 */
module Display {
  import opened Base

  /** A parsed display name; an absent host or screen is the empty string. */
  datatype XDisplay = XDisplay(host: string, number: string, screen: string)

  /**
   * Where `openDisplayConn` dials a display, or `Panic` when it panics
   * with "Must parse" instead.
   */
  datatype Target = Unix(path: string) | Tcp(address: string) | Panic

  predicate IsDigit(c: char)
  {
    '0' <= c <= '9'
  }

  /** One or more decimal digits (the regular expression's `\d+`). */
  predicate IsDecimal(s: string)
  {
    |s| > 0 && forall i :: 0 <= i < |s| ==> IsDigit(s[i])
  }

  /** The names the grammar accepts, as parts. */
  predicate WellFormed(d: XDisplay)
  {
    '\n' !in d.host && IsDecimal(d.number) && (d.screen == "" || IsDecimal(d.screen))
  }

  /** The display name a parsed display stands for. */
  function Render(d: XDisplay): string
  {
    d.host + ":" + d.number + (if d.screen == "" then "" else "." + d.screen)
  }

  /** The position of the last `c` in `s`, if any. */
  function LastIndex(s: string, c: char): (r: Option<nat>)
    ensures r.Some? ==> r.value < |s| && s[r.value] == c
    ensures r.Some? ==> forall j :: r.value < j < |s| ==> s[j] != c
    ensures r.None? ==> c !in s
  {
    if |s| == 0 then None
    else if s[|s| - 1] == c then Some(|s| - 1)
    else LastIndex(s[..|s| - 1], c)
  }

  /** The position of the first `c` in `s`, if any. */
  function FirstIndex(s: string, c: char): (r: Option<nat>)
    ensures r.Some? ==> r.value < |s| && s[r.value] == c
    ensures r.Some? ==> forall j :: 0 <= j < r.value ==> s[j] != c
    ensures r.None? ==> c !in s
  {
    if |s| == 0 then None
    else if s[0] == c then Some(0)
    else var r := FirstIndex(s[1..], c); if r.None? then None else Some(r.value + 1)
  }

  /** A `c` with no `c` after it is the last one. */
  lemma LastIndexAt(s: string, c: char, k: nat)
    requires k < |s| && s[k] == c
    requires forall j :: k < j < |s| ==> s[j] != c
    ensures LastIndex(s, c) == Some(k)
  {
  }

  /** A `c` with no `c` before it is the first one. */
  lemma FirstIndexAt(s: string, c: char, k: nat)
    requires k < |s| && s[k] == c
    requires forall j :: 0 <= j < k ==> s[j] != c
    ensures FirstIndex(s, c) == Some(k)
  {
  }

  /** The part after the ':': `number[.screen]`. */
  function ParseNumber(rest: string): Option<(string, string)>
  {
    match FirstIndex(rest, '.')
    case None => if IsDecimal(rest) then Some((rest, "")) else None
    case Some(k) =>
      if IsDecimal(rest[..k]) && IsDecimal(rest[k + 1..]) then Some((rest[..k], rest[k + 1..])) else None
  }

  /** `parseDisplay`. */
  function ParseDisplay(name: string): (r: Result<XDisplay, string>)
    ensures r.Ok? ==> WellFormed(r.value) && Render(r.value) == name
    ensures r.Err? ==> r.error == "Failed to parse DISPLAY: " + name
  {
    match LastIndex(name, ':')
    case None => Err("Failed to parse DISPLAY: " + name)
    case Some(k) =>
      var host := name[..k];
      if '\n' in host then Err("Failed to parse DISPLAY: " + name)
      else
        match ParseNumber(name[k + 1..])
        case None => Err("Failed to parse DISPLAY: " + name)
        case Some((number, screen)) =>
          assert name == host + ":" + name[k + 1..];
          Ok(XDisplay(host, number, screen))
  }

  /**
   * Every well-formed display is recovered from its name: together with
   * `ParseDisplay`'s contract, a name is accepted exactly when it is
   * `[host]:digits[.digits]` with no line break in the host, and the parts
   * are unique.
   */
  lemma ParseRender(d: XDisplay)
    requires WellFormed(d)
    ensures ParseDisplay(Render(d)) == Ok(d)
  {
    var s := Render(d);
    var k := |d.host|;
    var rest := Suffix(d);
    assert s == d.host + ([':'] + rest);
    assert s[..k] == d.host;
    assert s[k + 1..] == rest;
    forall j | k < j < |s|
      ensures s[j] != ':'
    {
      assert s[j] == rest[j - k - 1];
      assert IsDigit(rest[j - k - 1]) || rest[j - k - 1] == '.';
    }
    LastIndexAt(s, ':', k);
    ParseSuffix(d);
  }

  /** What follows the ':' in a rendered name. */
  function Suffix(d: XDisplay): (r: string)
    requires WellFormed(d)
    ensures forall j :: 0 <= j < |r| ==> IsDigit(r[j]) || r[j] == '.'
    ensures Render(d) == d.host + ":" + r
  {
    var r := d.number + (if d.screen == "" then "" else "." + d.screen);
    assert forall j :: 0 <= j < |d.number| ==> r[j] == d.number[j];
    assert forall j :: |d.number| < j < |r| ==> r[j] == d.screen[j - |d.number| - 1];
    r
  }

  lemma ParseSuffix(d: XDisplay)
    requires WellFormed(d)
    ensures ParseNumber(Suffix(d)) == Some((d.number, d.screen))
  {
    var rest := Suffix(d);
    var n := |d.number|;
    forall j | 0 <= j < n
      ensures rest[j] != '.'
    {
      assert rest[j] == d.number[j];
      assert IsDigit(d.number[j]);
    }
    if d.screen == "" {
      assert rest == d.number;
    } else {
      assert rest[n] == '.';
      FirstIndexAt(rest, '.', n);
      assert rest[..n] == d.number;
      assert rest[n + 1..] == d.screen;
    }
  }

  /** A name without a ':', or whose host has a line break, is refused. */
  lemma RejectedNames(name: string)
    requires ':' !in name || '\n' in name[..LastIndex(name, ':').value]
    ensures ParseDisplay(name).Err?
  {
  }

  /** The value of a string of digits (`strconv.Atoi` on what `\d+` matched). */
  function DecimalValue(s: string): nat
    requires forall i :: 0 <= i < |s| ==> IsDigit(s[i])
  {
    if |s| == 0 then 0
    else
      assert IsDigit(s[|s| - 1]);
      DecimalValue(s[..|s| - 1]) * 10 + (s[|s| - 1] as int - '0' as int)
  }

  function Digit(n: nat): (c: char)
    requires n < 10
    ensures IsDigit(c)
  {
    ('0' as int + n) as char
  }

  /** `%d` of a non-negative number: its digits, most significant first, no leading zero. */
  function DecimalString(n: nat): (s: string)
    ensures IsDecimal(s)
    ensures DecimalValue(s) == n
    ensures |s| > 1 ==> s[0] != '0'
  {
    if n < 10 then [Digit(n)]
    else
      var s := DecimalString(n / 10) + [Digit(n % 10)];
      assert s[..|s| - 1] == DecimalString(n / 10);
      s
  }

  /** The largest value of Go's `int` on the 64-bit platforms the client targets. */
  const MaxInt: nat := 0x7fff_ffff_ffff_ffff
  /** The smallest value of Go's `int`. */
  const MinInt: int := -0x8000_0000_0000_0000
  /** The number of values of Go's `int`. */
  const IntRange: nat := 0x1_0000_0000_0000_0000

  /** Go's `int` arithmetic wraps around: the value in range that differs from `x` by a multiple of 2^64. */
  function WrapInt(x: int): (r: int)
    ensures MinInt <= r <= MaxInt
    ensures MinInt <= x <= MaxInt ==> r == x
    ensures MaxInt < x <= MaxInt + IntRange ==> r == x - IntRange
  {
    (x - MinInt) % IntRange + MinInt
  }

  /** `%d` of an `int`: a minus sign before the digits of a negative number. */
  function IntString(n: int): (s: string)
    ensures n >= 0 ==> IsDecimal(s) && DecimalValue(s) == n
    ensures n < 0 ==> |s| > 1 && s[0] == '-' && IsDecimal(s[1..]) && DecimalValue(s[1..]) == -n
  {
    if n >= 0 then DecimalString(n)
    else
      var s := "-" + DecimalString(-n);
      assert s[1..] == DecimalString(-n);
      s
  }

  /** The TCP port of display `number` (`6000+num`), once `strconv.Atoi` has accepted the number. */
  function DisplayPort(number: string): int
    requires IsDecimal(number) && DecimalValue(number) <= MaxInt
  {
    WrapInt(6000 + DecimalValue(number))
  }

  /**
   * The address `openDisplayConn` dials: a unix socket named after the
   * display number when there is no host; otherwise `strconv.Atoi` reads
   * the number, which panics when it does not fit an `int`, and the
   * address is TCP port 6000 + number on the host, in `int` arithmetic.
   */
  function OpenDisplayTarget(name: string): (r: Result<Target, string>)
    ensures r.Err? <==> ParseDisplay(name).Err?
    ensures r.Err? ==> r.error == ParseDisplay(name).error
    ensures r.Ok? ==> (r.value.Unix? <==> ParseDisplay(name).value.host == "")
    ensures r.Ok? ==> (r.value.Panic? <==>
      ParseDisplay(name).value.host != "" && DecimalValue(ParseDisplay(name).value.number) > MaxInt)
  {
    match ParseDisplay(name)
    case Err(e) => Err(e)
    case Ok(d) =>
      if d.host == "" then Ok(Unix("/tmp/.X11-unix/X" + d.number))
      else if DecimalValue(d.number) > MaxInt then Ok(Panic)
      else Ok(Tcp(d.host + ":" + IntString(DisplayPort(d.number))))
  }

  /**
   * The TCP address splits back at its last ':' into the display's host
   * and the port: the decimal 6000 + number, or, past the largest `int`,
   * a negative number 2^64 below it. The socket path ends in the display
   * number as written.
   */
  lemma TargetParts(name: string)
    requires ParseDisplay(name).Ok?
    ensures var d := ParseDisplay(name).value;
      var n := DecimalValue(d.number);
      match OpenDisplayTarget(name).value
      case Unix(path) =>
        |path| > |d.number| && path[|path| - |d.number|..] == d.number
      case Tcp(address) =>
        var k := LastIndex(address, ':');
        k.Some? && address[..k.value] == d.host && k.value + 1 < |address|
          && var port := address[k.value + 1..];
          (6000 + n <= MaxInt ==> IsDecimal(port) && DecimalValue(port) == 6000 + n)
          && (6000 + n > MaxInt ==> port[0] == '-' && IsDecimal(port[1..]) && DecimalValue(port[1..]) == IntRange - 6000 - n)
      case Panic => n > MaxInt
  {
    var d := ParseDisplay(name).value;
    if d.host != "" && DecimalValue(d.number) <= MaxInt {
      var port := IntString(DisplayPort(d.number));
      assert ':' !in port by {
        if DisplayPort(d.number) < 0 {
          assert port == [port[0]] + port[1..];
        }
      }
      SplitAtColon(d.host, port);
    }
  }

  /** A host and a port with no ':' in it split back apart at the last ':'. */
  lemma SplitAtColon(host: string, port: string)
    requires ':' !in port
    ensures var address := host + ":" + port;
      LastIndex(address, ':') == Some(|host|) && address[..|host|] == host && address[|host| + 1..] == port
  {
    var address := host + ":" + port;
    var k := |host|;
    forall j | k < j < |address|
      ensures address[j] != ':'
    {
      assert address[j] == port[j - k - 1];
    }
    LastIndexAt(address, ':', k);
    assert address[..k] == host;
    assert address[k + 1..] == port;
  }
}
