/**
 * The console's UTF-16 to UTF-8 transcoder (`w16ToUtf8Transformer` in
 * tty/tty_windows.go): code units arrive as pairs of bytes in the
 * machine's order (little-endian on Windows), a high surrogate waits in
 * the transformer for its partner, and each character is written to the
 * destination in UTF-8 while it fits.
 */
module Transcode {
  import opened Base

  /** `utf8.RuneError`, U+FFFD. */
  const ReplacementChar: int := 0xFFFD
  /** `unicode.MaxRune`. */
  const MaxRune: int := 0x10FFFF

  /** `utf16.IsSurrogate`: a code unit reserved for surrogate pairs, high or low. */
  predicate IsSurrogate(c: int)
  {
    0xD800 <= c < 0xE000
  }

  predicate IsHighSurrogate(c: int)
  {
    0xD800 <= c < 0xDC00
  }

  predicate IsLowSurrogate(c: int)
  {
    0xDC00 <= c < 0xE000
  }

  /** A Unicode scalar value: a code point that is not a surrogate. */
  predicate IsScalar(c: int)
  {
    0 <= c <= MaxRune && !IsSurrogate(c)
  }

  /** What the transformer may hold between calls: nothing (0) or a surrogate. */
  predicate IsPending(high: int)
  {
    high == 0 || IsSurrogate(high)
  }

  // ---------------------------------------------------------------
  // UTF-8 (section 3 of RFC 3629)
  // ---------------------------------------------------------------

  /** `utf8.RuneLen` of a scalar value. */
  function RuneLen(c: int): (n: nat)
    requires IsScalar(c)
    ensures 1 <= n <= 4
  {
    if c < 0x80 then 1 else if c < 0x800 then 2 else if c < 0x1_0000 then 3 else 4
  }

  /** `utf8.EncodeRune` of a scalar value: a lead byte marking the length, then 6-bit continuation bytes. */
  function EncodeRune(c: int): (r: seq<byte>)
    requires IsScalar(c)
    ensures |r| == RuneLen(c)
  {
    if c < 0x80 then [c]
    else if c < 0x800 then [0xC0 + c / 0x40, 0x80 + c % 0x40]
    else if c < 0x1_0000 then [0xE0 + c / 0x1000, 0x80 + c / 0x40 % 0x40, 0x80 + c % 0x40]
    else [0xF0 + c / 0x4_0000, 0x80 + c / 0x1000 % 0x40, 0x80 + c / 0x40 % 0x40, 0x80 + c % 0x40]
  }

  predicate IsContinuation(b: byte)
  {
    0x80 <= b < 0xC0
  }

  /**
   * Reference decoder for the first character of `s`: the lead byte gives
   * the length, every further byte must be a continuation byte. Gives the
   * value and the number of bytes it took.
   */
  function DecodeRune(s: seq<byte>): Option<(int, nat)>
  {
    if |s| == 0 then None
    else if s[0] < 0x80 then Some((s[0] as int, 1))
    else if s[0] < 0xC0 then None
    else if s[0] < 0xE0 then
      if |s| < 2 || !IsContinuation(s[1]) then None
      else Some(((s[0] as int - 0xC0) * 0x40 + (s[1] as int - 0x80), 2))
    else if s[0] < 0xF0 then
      if |s| < 3 || !IsContinuation(s[1]) || !IsContinuation(s[2]) then None
      else Some(((s[0] as int - 0xE0) * 0x1000 + (s[1] as int - 0x80) * 0x40 + (s[2] as int - 0x80), 3))
    else if s[0] < 0xF8 then
      if |s| < 4 || !IsContinuation(s[1]) || !IsContinuation(s[2]) || !IsContinuation(s[3]) then None
      else Some(((s[0] as int - 0xF0) * 0x4_0000 + (s[1] as int - 0x80) * 0x1000 + (s[2] as int - 0x80) * 0x40
                 + (s[3] as int - 0x80), 4))
    else None
  }

  /** The encoding of a character is decoded back to it, whatever follows. */
  lemma DecodeEncodedRune(c: int, rest: seq<byte>)
    requires IsScalar(c)
    ensures DecodeRune(EncodeRune(c) + rest) == Some((c, RuneLen(c)))
  {
    if c < 0x80 {
    } else if c < 0x800 {
      DecodeTwoBytes(c, rest);
    } else if c < 0x1_0000 {
      DecodeThreeBytes(c, rest);
    } else {
      DecodeFourBytes(c, rest);
    }
  }

  lemma DecodeTwoBytes(c: int, rest: seq<byte>)
    requires 0x80 <= c < 0x800
    ensures DecodeRune([0xC0 + c / 0x40, 0x80 + c % 0x40] + rest) == Some((c, 2))
  {
    var s := [0xC0 + c / 0x40, 0x80 + c % 0x40] + rest;
    assert s[0] == 0xC0 + c / 0x40 && s[1] == 0x80 + c % 0x40;
  }

  lemma DecodeThreeBytes(c: int, rest: seq<byte>)
    requires 0x800 <= c < 0x1_0000
    ensures DecodeRune([0xE0 + c / 0x1000, 0x80 + c / 0x40 % 0x40, 0x80 + c % 0x40] + rest) == Some((c, 3))
  {
    var s := [0xE0 + c / 0x1000, 0x80 + c / 0x40 % 0x40, 0x80 + c % 0x40] + rest;
    assert s[0] == 0xE0 + c / 0x1000 && s[1] == 0x80 + c / 0x40 % 0x40 && s[2] == 0x80 + c % 0x40;
    Digits64(c);
  }

  lemma DecodeFourBytes(c: int, rest: seq<byte>)
    requires 0x1_0000 <= c <= MaxRune
    ensures DecodeRune([0xF0 + c / 0x4_0000, 0x80 + c / 0x1000 % 0x40, 0x80 + c / 0x40 % 0x40, 0x80 + c % 0x40] + rest)
      == Some((c, 4))
  {
    var s := [0xF0 + c / 0x4_0000, 0x80 + c / 0x1000 % 0x40, 0x80 + c / 0x40 % 0x40, 0x80 + c % 0x40] + rest;
    assert s[0] == 0xF0 + c / 0x4_0000 && s[1] == 0x80 + c / 0x1000 % 0x40;
    assert s[2] == 0x80 + c / 0x40 % 0x40 && s[3] == 0x80 + c % 0x40;
    Digits64(c);
    Digits64(c / 0x40);
  }

  /** Base-64 digits: a number is its upper part followed by its lowest 6 bits. */
  lemma Digits64(c: nat)
    ensures c / 0x1000 * 0x1000 + c / 0x40 % 0x40 * 0x40 + c % 0x40 == c
  {
  }

  /** The UTF-8 encoding of a string of characters. */
  function EncodeUtf8(cs: seq<int>): seq<byte>
    requires forall i :: 0 <= i < |cs| ==> IsScalar(cs[i])
  {
    if cs == [] then [] else EncodeRune(cs[0]) + EncodeUtf8(cs[1..])
  }

  // ---------------------------------------------------------------
  // UTF-16 (section 2 of RFC 2781)
  // ---------------------------------------------------------------

  /** `utf16.DecodeRune`: the character of a surrogate pair, U+FFFD for anything else. */
  function DecodePair(r1: int, r2: int): (c: int)
    ensures IsScalar(c) && c != 0
  {
    if IsHighSurrogate(r1) && IsLowSurrogate(r2) then (r1 - 0xD800) * 0x400 + (r2 - 0xDC00) + 0x1_0000
    else ReplacementChar
  }

  /** `utf16.EncodeRune` of a character beyond U+FFFF. */
  function EncodePair(c: int): (p: (u16, u16))
    requires 0x1_0000 <= c <= MaxRune
    ensures IsHighSurrogate(p.0) && IsLowSurrogate(p.1)
  {
    (0xD800 + (c - 0x1_0000) / 0x400, 0xDC00 + (c - 0x1_0000) % 0x400)
  }

  /** A surrogate pair decodes back to its character. */
  lemma DecodeEncodedPair(c: int)
    requires 0x1_0000 <= c <= MaxRune
    ensures DecodePair(EncodePair(c).0, EncodePair(c).1) == c
  {
  }

  /** The UTF-16 encoding of a string of characters. */
  function EncodeUtf16(cs: seq<int>): seq<u16>
    requires forall i :: 0 <= i < |cs| ==> IsScalar(cs[i])
  {
    if cs == [] then []
    else
      var c := cs[0];
      assert IsScalar(c);
      if c < 0x1_0000 then [c as u16] + EncodeUtf16(cs[1..])
      else [EncodePair(c).0, EncodePair(c).1] + EncodeUtf16(cs[1..])
  }

  // ---------------------------------------------------------------
  // The transformer's loop, as functions
  // ---------------------------------------------------------------

  /** The code units in `src`, two bytes each in the machine's order; an odd last byte is not one. */
  function Units(src: seq<byte>): (us: seq<u16>)
    ensures |us| == |src| / 2
  {
    seq(|src| / 2, i requires 0 <= i < |src| / 2 => DecodeU16([src[2 * i], src[2 * i + 1]], LittleEndian))
  }

  /** The character a unit stands for, given what is pending: itself, or what it makes with the pending unit. */
  function Combine(high: int, u: u16): (c: int)
    ensures IsSurrogate(c) ==> high == 0 && c == u
    ensures 0 <= c <= MaxRune
  {
    if high != 0 then DecodePair(high, u) else u
  }

  /** The result of transcoding: bytes written, units consumed, the unit left pending. */
  datatype Transcoded = Transcoded(out: seq<byte>, consumed: nat, high: int)

  /**
   * One call's loop over `units` with `room` bytes of destination: a
   * surrogate becomes pending, any other character is written while it
   * fits; the first that does not fit ends the call, unconsumed, with the
   * pending unit kept.
   */
  function Convert(units: seq<u16>, high: int, room: nat): (t: Transcoded)
    requires IsPending(high)
    ensures |t.out| <= room && t.consumed <= |units| && IsPending(t.high)
    decreases |units|
  {
    if units == [] then Transcoded([], 0, high)
    else
      var c := Combine(high, units[0]);
      if IsSurrogate(c) then
        var t := Convert(units[1..], c, room);
        Transcoded(t.out, t.consumed + 1, t.high)
      else if RuneLen(c) > room then Transcoded([], 0, high)
      else
        var t := Convert(units[1..], 0, room - RuneLen(c));
        Transcoded(EncodeRune(c) + t.out, t.consumed + 1, t.high)
  }

  /** Reference: transcoding with unlimited room, as the units of a whole stream go through. */
  function ConvertAll(units: seq<u16>, high: int): (t: Transcoded)
    requires IsPending(high)
    ensures t.consumed == |units| && IsPending(t.high)
    decreases |units|
  {
    if units == [] then Transcoded([], 0, high)
    else
      var c := Combine(high, units[0]);
      var t := ConvertAll(units[1..], if IsSurrogate(c) then c else 0);
      Transcoded((if IsSurrogate(c) then [] else EncodeRune(c)) + t.out, t.consumed + 1, t.high)
  }

  /**
   * Nothing is lost or repeated across calls: what one call writes,
   * followed by what the rest of the units give from the unit it left
   * pending, is what the whole stream gives.
   */
  lemma {:induction false} ConvertResumes(units: seq<u16>, high: int, room: nat)
    requires IsPending(high)
    ensures var t := Convert(units, high, room);
      var rest := ConvertAll(units[t.consumed..], t.high);
      ConvertAll(units, high).out == t.out + rest.out && ConvertAll(units, high).high == rest.high
    decreases |units|
  {
    if units != [] {
      var c := Combine(high, units[0]);
      var t := Convert(units, high, room);
      if IsSurrogate(c) {
        ConvertResumes(units[1..], c, room);
        var t' := Convert(units[1..], c, room);
        assert units[t.consumed..] == units[1..][t'.consumed..];
      } else if RuneLen(c) <= room {
        ConvertResumes(units[1..], 0, room - RuneLen(c));
        var t' := Convert(units[1..], 0, room - RuneLen(c));
        assert units[t.consumed..] == units[1..][t'.consumed..];
        AppendAssoc(EncodeRune(c), t'.out, ConvertAll(units[1..][t'.consumed..], t'.high).out);
      } else {
        assert units[0..] == units;
        AppendEmpty(ConvertAll(units, high).out);
      }
    }
  }

  /**
   * Room for three bytes a unit, and one more for a pending unit, is
   * enough: every unit is consumed and the call writes what the whole
   * stream gives.
   */
  lemma {:induction false} ConvertFits(units: seq<u16>, high: int, room: nat)
    requires IsPending(high) && 3 * |units| + (if high != 0 then 1 else 0) <= room
    ensures Convert(units, high, room) == ConvertAll(units, high)
    decreases |units|
  {
    if units != [] {
      var c := Combine(high, units[0]);
      if IsSurrogate(c) {
        ConvertFits(units[1..], c, room);
        AppendEmpty(ConvertAll(units[1..], c).out);
      } else {
        assert RuneLen(c) <= 3 || high != 0;
        ConvertFits(units[1..], 0, room - RuneLen(c));
      }
    }
  }

  /**
   * With too little room a call stops early and still reports no error:
   * of two U+3042 and three bytes of room, one unit is consumed and one
   * is left in the source.
   */
  lemma ShortDestination()
    ensures Convert([0x3042, 0x3042], 0, 3) == Transcoded(EncodeRune(0x3042), 1, 0)
  {
    var units: seq<u16> := [0x3042, 0x3042];
    assert units[1..] == [0x3042];
    assert Convert(units[1..], 0, 0) == Transcoded([], 0, 0);
    AppendEmpty(EncodeRune(0x3042));
  }

  /**
   * Transcoding is correct: the UTF-16 encoding of any string of
   * characters comes out as its UTF-8 encoding, with nothing left pending.
   */
  lemma {:induction false} ConvertEncoded(cs: seq<int>)
    requires forall i :: 0 <= i < |cs| ==> IsScalar(cs[i])
    ensures ConvertAll(EncodeUtf16(cs), 0) == Transcoded(EncodeUtf8(cs), |EncodeUtf16(cs)|, 0)
    decreases |cs|
  {
    if cs != [] {
      var units := EncodeUtf16(cs);
      ConvertEncoded(cs[1..]);
      if cs[0] < 0x1_0000 {
        assert units[1..] == EncodeUtf16(cs[1..]);
      } else {
        var p := EncodePair(cs[0]);
        assert units[1..][1..] == EncodeUtf16(cs[1..]);
        DecodeEncodedPair(cs[0]);
        assert units[1..][0] == p.1;
        AppendEmpty(ConvertAll(units[1..], p.0).out);
      }
    }
  }

  /** The first unit, one case at a time: what it writes and what it leaves pending. */
  lemma FirstUnit(units: seq<u16>, high: int, room: nat)
    requires IsPending(high) && units != []
    ensures var t := Convert(units, high, room);
      var u := units[0];
      (high == 0 && IsSurrogate(u) ==> t.consumed >= 1 && t == Convert(units[1..], u, room).(consumed := t.consumed))
      && (high == 0 && !IsSurrogate(u) && RuneLen(u) <= room ==> t.out[..RuneLen(u)] == EncodeRune(u))
      && (high != 0 && !(IsHighSurrogate(high) && IsLowSurrogate(u)) && 3 <= room ==> t.out[..3] == EncodeRune(ReplacementChar))
      && (!IsSurrogate(Combine(high, u)) && RuneLen(Combine(high, u)) > room ==> t == Transcoded([], 0, high))
  {
  }

  /**
   * A high surrogate followed by anything but a low surrogate gives U+FFFD
   * for the two units together: the unit after it is consumed with it.
   */
  lemma UnpairedHighSurrogate(u: u16, rest: seq<u16>)
    requires !IsLowSurrogate(u)
    ensures ConvertAll([0xD800, u] + rest, 0).out == EncodeRune(ReplacementChar) + ConvertAll(rest, 0).out
  {
    var units := [0xD800, u] + rest;
    assert units[1..][1..] == rest;
  }

  // ---------------------------------------------------------------
  // The transformer
  // ---------------------------------------------------------------

  /** The loop's account of a call: `out` written and `i` units consumed so far, then the rest of the units. */
  function Joined(out: seq<byte>, i: nat, t: Transcoded): Transcoded
  {
    Transcoded(out + t.out, i + t.consumed, t.high)
  }

  predicate Progress(units: seq<u16>, high0: int, room: nat, out: seq<byte>, i: nat, high: int)
    requires IsPending(high0)
  {
    i <= |units| && |out| <= room && IsPending(high)
    && Convert(units, high0, room) == Joined(out, i, Convert(units[i..], high, room - |out|))
  }

  /** One unit further on, at a unit that becomes (or completes nothing and stays) pending. */
  lemma AdvancePending(units: seq<u16>, high0: int, room: nat, out: seq<byte>, i: nat, high: int)
    requires IsPending(high0) && Progress(units, high0, room, out, i, high) && i < |units|
    requires IsSurrogate(Combine(high, units[i]))
    ensures Progress(units, high0, room, out, i + 1, Combine(high, units[i]))
  {
    assert units[i..][0] == units[i] && units[i..][1..] == units[i + 1..];
  }

  /** One unit further on, at a character that is written. */
  lemma AdvanceWrite(units: seq<u16>, high0: int, room: nat, out: seq<byte>, i: nat, high: int)
    requires IsPending(high0) && Progress(units, high0, room, out, i, high) && i < |units|
    requires !IsSurrogate(Combine(high, units[i])) && RuneLen(Combine(high, units[i])) <= room - |out|
    ensures Progress(units, high0, room, out + EncodeRune(Combine(high, units[i])), i + 1, 0)
  {
    var c := Combine(high, units[i]);
    assert units[i..][0] == units[i] && units[i..][1..] == units[i + 1..];
    var t := Convert(units[i + 1..], 0, room - |out| - RuneLen(c));
    AppendAssoc(out, EncodeRune(c), t.out);
  }

  /** The call ends where the units run out or at a character that does not fit. */
  lemma Finish(units: seq<u16>, high0: int, room: nat, out: seq<byte>, i: nat, high: int)
    requires IsPending(high0) && Progress(units, high0, room, out, i, high)
    requires i == |units| || (!IsSurrogate(Combine(high, units[i])) && RuneLen(Combine(high, units[i])) > room - |out|)
    ensures Convert(units, high0, room) == Transcoded(out, i, high)
  {
    AppendEmpty(out);
  }

  /** The bytes of `c` written at `at`, after the `out` already there. */
  method PutRune(dst: array<byte>, at: nat, c: int, ghost out: seq<byte>, ghost original: seq<byte>)
    requires IsScalar(c) && at + RuneLen(c) <= dst.Length == |original| && at == |out|
    requires dst[..] == out + original[at..]
    modifies dst
    ensures dst[..] == (out + EncodeRune(c)) + original[at + RuneLen(c)..]
  {
    var r := EncodeRune(c);
    var k := 0;
    while k < |r|
      invariant 0 <= k <= |r|
      invariant dst[..] == out + r[..k] + original[at + k..]
    {
      dst[at + k] := r[k];
      k := k + 1;
    }
    assert r[..k] == r;
  }

  /**
   * One round of the loop of `Transform`, on unit `u` (the `i`th): a
   * surrogate becomes pending; any other character is written if it fits
   * and clears the pending unit; one that does not fit ends the call
   * (`stop`) with nothing changed.
   */
  method Step(dst: array<byte>, u: u16, ndst: nat, high: int,
               ghost units: seq<u16>, ghost high0: int, ghost i: nat, ghost out: seq<byte>, ghost original: seq<byte>)
    returns (ndst': nat, high': int, stop: bool, ghost out': seq<byte>)
    requires IsPending(high0) && Progress(units, high0, dst.Length, out, i, high) && i < |units| && u == units[i]
    requires ndst == |out| && |original| == dst.Length && dst[..] == out + original[ndst..]
    modifies dst
    ensures stop ==> Convert(units, high0, dst.Length) == Transcoded(out, i, high)
    ensures stop ==> ndst' == ndst && high' == high && out' == out && dst[..] == old(dst[..])
    ensures !stop ==> Progress(units, high0, dst.Length, out', i + 1, high')
    ensures !stop ==> ndst' == |out'| && dst[..] == out' + original[ndst'..]
  {
    var c := Combine(high, u);
    if IsSurrogate(c) {
      AdvancePending(units, high0, dst.Length, out, i, high);
      return ndst, c, false, out;
    }
    if RuneLen(c) > dst.Length - ndst {
      Finish(units, high0, dst.Length, out, i, high);
      return ndst, high, true, out;
    }
    PutRune(dst, ndst, c, out, original);
    AdvanceWrite(units, high0, dst.Length, out, i, high);
    return ndst + RuneLen(c), 0, false, out + EncodeRune(c);
  }

  /** `w16ToUtf8Transformer`: the only state is the pending surrogate, 0 for none. */
  class W16ToUtf8Transformer {
    var high: int

    predicate Valid()
      reads this
    {
      IsPending(high)
    }

    constructor ()
      ensures Valid() && high == 0
    {
      high := 0;
    }

    /** `Reset`: forgets the pending unit. */
    method Reset()
      modifies this
      ensures Valid() && high == 0
    {
      high := 0;
    }

    /**
     * `Transform`: an empty source at the end of the input is `io.EOF`.
     * Otherwise whole units of `src` are transcoded into `dst` while
     * their characters fit; the bytes written and consumed are returned
     * and the pending unit is kept for the next call.
     */
    method Transform(dst: array<byte>, src: seq<byte>, atEOF: bool) returns (ndst: nat, nsrc: nat, eof: bool)
      requires Valid()
      modifies this, dst
      ensures Valid()
      ensures |src| == 0 && atEOF ==> eof && ndst == 0 && nsrc == 0 && high == old(high) && dst[..] == old(dst[..])
      ensures !(|src| == 0 && atEOF) ==> (
        var t := Convert(Units(src), old(high), dst.Length);
        !eof && ndst == |t.out| && nsrc == 2 * t.consumed && high == t.high && dst[..] == t.out + old(dst[..])[ndst..])
      ensures nsrc <= |src| && ndst <= dst.Length
    {
      if |src| == 0 && atEOF {
        return 0, 0, true;
      }
      ndst, nsrc, high := TransformLoop(dst, src, high);
      eof := false;
    }
  }

  /**
   * The loop of `Transform`, from pending unit `high`: the bytes written,
   * the bytes consumed and the unit left pending.
   */
  method TransformLoop(dst: array<byte>, src: seq<byte>, high: int) returns (ndst: nat, nsrc: nat, high': int)
    requires IsPending(high)
    modifies dst
    ensures var t := Convert(Units(src), high, dst.Length);
      ndst == |t.out| && nsrc == 2 * t.consumed && high' == t.high && dst[..] == t.out + old(dst[..])[ndst..]
    ensures nsrc <= |src| && ndst <= dst.Length
  {
    high' := high;
    ghost var units := Units(src);
    ghost var out: seq<byte> := [];
    assert units[0..] == units;
    AppendEmpty(Convert(units, high, dst.Length).out);
    assert Progress(units, high, dst.Length, [], 0, high);
    ndst, nsrc := 0, 0;
    var i := 0;
    while i < |src| / 2
      invariant Progress(units, high, dst.Length, out, i, high')
      invariant nsrc == 2 * i && ndst == |out| && dst[..] == out + old(dst[..])[ndst..]
    {
      nsrc := nsrc + 2;
      var v := DecodeU16([src[2 * i], src[2 * i + 1]], LittleEndian);
      var stop;
      ndst, high', stop, out := Step(dst, v, ndst, high', units, high, i, out, old(dst[..]));
      if stop {
        nsrc := nsrc - 2;
        break;
      }
      i := i + 1;
    }
    if i == |src| / 2 {
      Finish(units, high, dst.Length, out, i, high');
    }
    assert Convert(units, high, dst.Length) == Transcoded(out, i, high');
    assert nsrc <= |src| by {
      assert i <= |src| / 2 && 2 * (|src| / 2) <= |src|;
    }
  }
}
