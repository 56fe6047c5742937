/**
 * The Windows console input reader (tty/sys/windows/reader.go): console
 * input records, fetched in batches, are filtered into the UTF-16 code
 * units of the keys typed, written two bytes each into the caller's
 * buffer; records that do not fit are kept for the next call.
 */
module ConsoleReader {
  import opened Base

  /** `KEY_EVENT`. */
  const KeyEvent: u16 := 0x1
  /** `WINDOW_BUFFER_SIZE_EVENT`. */
  const WindowBufferSizeEvent: u16 := 0x4
  /** `VK_MENU`, the Alt key. */
  const VkMenu: u16 := 0x12
  /** The number of records one `ReadConsoleInputW` call can deliver (`buf [1024]inputRecord`). */
  const BatchSize: nat := 1024

  /** `keyEventRecord`; `keyDown` is a 32-bit signed flag of which only zero matters. */
  datatype KeyEventRecord = KeyEventRecord(
    keyDown: int,
    repeatCount: u16,
    virtualKeyCode: u16,
    virtualScanCode: u16,
    unicodeChar: u16,
    controlKeyState: nat)

  /**
   * `inputRecord`: the event type and its 16-byte payload, seen as a key
   * record (the payload is only read as one when the type is `KeyEvent`).
   */
  datatype InputRecord = InputRecord(eventType: u16, key: KeyEventRecord)

  /** Why the console could not be read: end of input or another error. */
  datatype ConsoleError = ConsoleEof | ConsoleFailed(code: nat)

  /**
   * The keys that produce input: a key press (or any Alt event, so that
   * Alt+numpad composition arrives) carrying a character, or one with no
   * scan code at all.
   */
  predicate Typed(k: KeyEventRecord)
  {
    (k.keyDown != 0 || k.virtualKeyCode == VkMenu) && (k.unicodeChar != 0 || k.virtualScanCode == 0)
  }

  /** A record that produces a code unit. */
  predicate Emits(rec: InputRecord)
  {
    rec.eventType == KeyEvent && Typed(rec.key)
  }

  /** A record that sends one window-size notification, when notifications are wanted. */
  predicate Signals(rec: InputRecord, notify: bool)
  {
    rec.eventType == WindowBufferSizeEvent && notify
  }

  /** Reference: every code unit the records produce, in order. */
  function Filter(recs: seq<InputRecord>): seq<u16>
  {
    if recs == [] then []
    else (if Emits(recs[0]) then [recs[0].key.unicodeChar] else []) + Filter(recs[1..])
  }

  /** Reference: the notifications the records send. */
  function SignalCount(recs: seq<InputRecord>, notify: bool): nat
  {
    if recs == [] then 0
    else (if Signals(recs[0], notify) then 1 else 0) + SignalCount(recs[1..], notify)
  }

  lemma {:induction false} FilterAppend(a: seq<InputRecord>, b: seq<InputRecord>)
    ensures Filter(a + b) == Filter(a) + Filter(b)
    ensures SignalCount(a + b, true) == SignalCount(a, true) + SignalCount(b, true)
    ensures SignalCount(a + b, false) == SignalCount(a, false) + SignalCount(b, false)
    decreases a
  {
    if a == [] {
      assert a + b == b;
    } else {
      assert (a + b)[1..] == a[1..] + b;
      FilterAppend(a[1..], b);
    }
  }

  /** A key record with only the fields the filter looks at set. */
  function Key(keyDown: int, scanCode: u16, c: u16): InputRecord
  {
    InputRecord(KeyEvent, KeyEventRecord(keyDown, 0, 0, scanCode, c, 0))
  }

  /** Key releases are dropped: pressing and releasing a, b and c types "abc". */
  lemma TypedText()
    ensures Filter([Key(1, 0, 0x61), Key(0, 0, 0x61), Key(1, 0, 0x62), Key(0, 0, 0x62), Key(1, 0, 0x63), Key(0, 0, 0x63)])
      == [0x61, 0x62, 0x63]
  {
    var recs := [Key(1, 0, 0x61), Key(0, 0, 0x61), Key(1, 0, 0x62), Key(0, 0, 0x62), Key(1, 0, 0x63), Key(0, 0, 0x63)];
    assert recs[1..][1..] == recs[2..] && recs[2..][1..] == recs[3..] && recs[3..][1..] == recs[4..];
    assert recs[4..][1..] == recs[5..] && recs[5..][1..] == [];
  }

  /** A shift key (no character, scan code 0x10) types nothing, pressed or released. */
  lemma ShiftTypesNothing()
    ensures Filter([Key(1, 0x10, 0), Key(0, 0x10, 0), Key(1, 0x10, 0), Key(0, 0x10, 0)]) == []
  {
    var recs := [Key(1, 0x10, 0), Key(0, 0x10, 0), Key(1, 0x10, 0), Key(0, 0x10, 0)];
    assert recs[1..][1..] == recs[2..] && recs[2..][1..] == recs[3..] && recs[3..][1..] == [];
  }

  /** The outcome of one pass over the records: units written, records used, notifications sent. */
  datatype Scanned = Scanned(units: seq<u16>, pos: nat, signals: nat)

  /**
   * One pass of `Read`'s loop with room for `room` code units: it stops
   * at the first record that produces a unit that no longer fits, and
   * leaves that record unread.
   */
  function Scan(recs: seq<InputRecord>, room: nat, notify: bool): (s: Scanned)
    ensures |s.units| <= room && s.pos <= |recs|
    decreases |recs|
  {
    if recs == [] then Scanned([], 0, 0)
    else if Emits(recs[0]) then
      if room == 0 then Scanned([], 0, 0)
      else
        var s := Scan(recs[1..], room - 1, notify);
        Scanned([recs[0].key.unicodeChar] + s.units, s.pos + 1, s.signals)
    else
      var s := Scan(recs[1..], room, notify);
      Scanned(s.units, s.pos + 1, s.signals + if Signals(recs[0], notify) then 1 else 0)
  }

  /** One pass writes exactly the units of the records it consumes and sends their notifications. */
  lemma {:induction false} ScanConsumed(recs: seq<InputRecord>, room: nat, notify: bool)
    ensures var s := Scan(recs, room, notify);
      s.units == Filter(recs[..s.pos]) && s.signals == SignalCount(recs[..s.pos], notify)
    decreases |recs|
  {
    var s := Scan(recs, room, notify);
    if recs != [] && !(Emits(recs[0]) && room == 0) {
      var r := if Emits(recs[0]) then room - 1 else room;
      var s' := Scan(recs[1..], r, notify);
      ScanConsumed(recs[1..], r, notify);
      assert recs[..s.pos][1..] == recs[1..][..s'.pos];
    }
  }

  /** A pass stops early only at a record that produces a unit when the room is used up. */
  lemma {:induction false} ScanStops(recs: seq<InputRecord>, room: nat, notify: bool)
    ensures var s := Scan(recs, room, notify);
      s.pos < |recs| ==> Emits(recs[s.pos]) && |s.units| == room
    decreases |recs|
  {
    if recs != [] && !(Emits(recs[0]) && room == 0) {
      var r := if Emits(recs[0]) then room - 1 else room;
      ScanStops(recs[1..], r, notify);
    }
  }

  /**
   * Nothing is lost: the units of all the records are those one pass
   * writes followed by those of the records it keeps.
   */
  lemma ScanKeepsRest(recs: seq<InputRecord>, room: nat, notify: bool)
    ensures var s := Scan(recs, room, notify);
      Filter(recs) == s.units + Filter(recs[s.pos..])
  {
    var s := Scan(recs, room, notify);
    ScanConsumed(recs, room, notify);
    assert recs == recs[..s.pos] + recs[s.pos..];
    FilterAppend(recs[..s.pos], recs[s.pos..]);
  }

  /** With room for all of them, one pass consumes every record. */
  lemma ScanAll(recs: seq<InputRecord>, room: nat, notify: bool)
    requires |Filter(recs)| <= room
    ensures Scan(recs, room, notify).pos == |recs|
  {
    ScanStops(recs, room, notify);
    ScanKeepsRest(recs, room, notify);
  }

  /** The loop's account of a pass: `units` and `signals` so far, up to `pos`, followed by a pass over the rest. */
  predicate Progress(recs: seq<InputRecord>, room: nat, notify: bool, units: seq<u16>, pos: nat, signals: nat)
  {
    pos <= |recs| && |units| <= room
    && Scan(recs, room, notify) == Join(units, pos, signals, Scan(recs[pos..], room - |units|, notify))
  }

  /** A pass ends where the records run out or where a unit no longer fits. */
  lemma ScanDone(recs: seq<InputRecord>, room: nat, notify: bool, units: seq<u16>, pos: nat, signals: nat)
    requires Progress(recs, room, notify, units, pos, signals)
    requires pos == |recs| || (Emits(recs[pos]) && |units| == room)
    ensures Scan(recs, room, notify) == Scanned(units, pos, signals)
  {
    assert units + [] == units;
  }

  /** The loop's account of a pass, one record further on, at a record that produces a unit that fits. */
  lemma AdvanceEmit(recs: seq<InputRecord>, room: nat, notify: bool, units: seq<u16>, pos: nat, signals: nat)
    requires Progress(recs, room, notify, units, pos, signals)
    requires pos < |recs| && Emits(recs[pos]) && |units| < room
    ensures Progress(recs, room, notify, units + [recs[pos].key.unicodeChar], pos + 1, signals)
  {
    assert recs[pos..][0] == recs[pos] && recs[pos..][1..] == recs[pos + 1..];
    var c := recs[pos].key.unicodeChar;
    var rest := Scan(recs[pos + 1..], room - |units| - 1, notify);
    assert units + ([c] + rest.units) == (units + [c]) + rest.units;
  }

  /** The loop's account of a pass, one record further on, at a record that produces no unit. */
  lemma AdvanceSkip(recs: seq<InputRecord>, room: nat, notify: bool, units: seq<u16>, pos: nat, signals: nat)
    requires Progress(recs, room, notify, units, pos, signals)
    requires pos < |recs| && !Emits(recs[pos])
    ensures Progress(recs, room, notify, units, pos + 1, signals + if Signals(recs[pos], notify) then 1 else 0)
  {
    assert recs[pos..][0] == recs[pos] && recs[pos..][1..] == recs[pos + 1..];
  }

  /** The buffer after writing unit `c` at `n`, given what it held before. */
  lemma WriteStep(before: seq<byte>, original: seq<byte>, n: nat, units: seq<u16>, c: u16)
    requires n + 2 <= |before| == |original| && n == 2 * |units|
    requires before == Units(units) + original[n..]
    ensures before[..n] + EncodeU16(c, LittleEndian) + before[n + 2..] == Units(units + [c]) + original[n + 2..]
  {
    var after := before[..n] + EncodeU16(c, LittleEndian) + before[n + 2..];
    var want := Units(units + [c]) + original[n + 2..];
    forall i | 0 <= i < |after|
      ensures after[i] == want[i]
    {
      if i < n {
        assert (units + [c])[i / 2] == units[i / 2];
      }
    }
  }

  /** The bytes of code units in the machine's order (little-endian on Windows). */
  function Units(us: seq<u16>): (r: seq<byte>)
    ensures |r| == 2 * |us|
  {
    seq(2 * |us|, i requires 0 <= i < 2 * |us| => EncodeU16(us[i / 2], LittleEndian)[i % 2])
  }

  /** The combined effect of a finished part of the loop and the pass over the rest. */
  function Join(units: seq<u16>, pos: nat, signals: nat, s: Scanned): Scanned
  {
    Scanned(units + s.units, pos + s.pos, signals + s.signals)
  }

  /** Writes unit `c` after the units already in `b`. */
  method PutUnit(b: array<byte>, n: nat, c: u16, ghost units: seq<u16>, ghost original: seq<byte>)
    requires n + 2 <= b.Length == |original| && n == 2 * |units|
    requires b[..] == Units(units) + original[n..]
    modifies b
    ensures b[..] == Units(units + [c]) + original[n + 2..]
  {
    ghost var before := b[..];
    PutUint16(b, n, c);
    WriteStep(before, original, n, units, c);
  }

  /** `binary.NativeEndian.PutUint16(b[n:], c)` on a little-endian machine. */
  method PutUint16(b: array<byte>, n: nat, c: u16)
    requires n + 2 <= b.Length
    modifies b
    ensures b[..] == old(b[..])[..n] + EncodeU16(c, LittleEndian) + old(b[..])[n + 2..]
  {
    b[n] := c % 0x100;
    b[n + 1] := c / 0x100;
  }

  /**
   * `inputRecordReader`: the records of the last batch not yet used
   * (the source keeps `nil` rather than an empty slice, so "no records
   * left" is the empty sequence here), whether window-size notifications
   * are wanted (`sigwinchCh != nil`), and how many have been sent.
   */
  class InputRecordReader {
    var remaining: seq<InputRecord>
    var notifications: nat
    const notify: bool

    constructor (notify: bool)
      ensures remaining == [] && notifications == 0 && this.notify == notify
    {
      remaining := [];
      notifications := 0;
      this.notify := notify;
    }

    /**
     * `Read`: `next` is what `ReadConsoleInputW` delivers if it is called,
     * which happens only when no records are left. A failure is returned
     * as is and changes nothing. Otherwise the units of the records that
     * fit are written to the start of `b`, their byte count returned, and
     * the rest of the records kept.
     */
    method Read(b: array<byte>, next: Result<seq<InputRecord>, ConsoleError>) returns (res: Result<nat, ConsoleError>)
      requires next.Ok? ==> |next.value| <= BatchSize
      modifies this, b
      ensures old(remaining) == [] && next.Err? ==>
        res == Err(next.error) && remaining == old(remaining) && notifications == old(notifications)
        && b[..] == old(b[..])
      ensures !(old(remaining) == [] && next.Err?) ==>
        var recs := if old(remaining) == [] then next.value else old(remaining);
        var s := Scan(recs, b.Length / 2, notify);
        res == Ok(2 * |s.units|) && remaining == recs[s.pos..]
        && notifications == old(notifications) + s.signals
        && b[..] == Units(s.units) + old(b[..])[2 * |s.units|..]
    {
      var recs := remaining;
      if recs == [] {
        if next.Err? {
          return Err(next.error);
        }
        recs := next.value;
      }
      var n, pos, signals := Fill(b, recs, notify);
      notifications := notifications + signals;
      remaining := recs[pos..];
      return Ok(n);
    }
  }

  /**
   * One round of the labelled loop of `Read`, on record `recs[pos]`: a key
   * event that produces a unit is written while two bytes remain (without
   * them the loop breaks, `stop`), a buffer-size event is counted when
   * notifications are on, and every other record is passed over.
   */
  method Step(b: array<byte>, recs: seq<InputRecord>, notify: bool, n: nat, pos: nat, signals: nat,
              ghost room: nat, ghost units: seq<u16>, ghost original: seq<byte>)
    returns (n': nat, pos': nat, signals': nat, stop: bool, ghost units': seq<u16>)
    requires room == b.Length / 2 && |original| == b.Length
    requires Progress(recs, room, notify, units, pos, signals) && pos < |recs| && n == 2 * |units|
    requires b[..] == Units(units) + original[n..]
    modifies b
    ensures stop ==> Scan(recs, room, notify) == Scanned(units, pos, signals)
    ensures stop ==> n' == n && pos' == pos && signals' == signals && units' == units && b[..] == old(b[..])
    ensures !stop ==> pos' == pos + 1 && Progress(recs, room, notify, units', pos', signals')
    ensures !stop ==> n' == 2 * |units'| && b[..] == Units(units') + original[n'..]
  {
    n', pos', signals', stop, units' := n, pos + 1, signals, false, units;
    var rec := recs[pos];
    if rec.eventType == KeyEvent {
      if !Typed(rec.key) {
        AdvanceSkip(recs, room, notify, units, pos, signals);
      } else if b.Length - n < 2 {
        ScanDone(recs, room, notify, units, pos, signals);
        pos', stop := pos, true;
      } else {
        var c := rec.key.unicodeChar;
        PutUnit(b, n, c, units, original);
        AdvanceEmit(recs, room, notify, units, pos, signals);
        units' := units + [c];
        n' := n + 2;
      }
    } else {
      var signal := if rec.eventType == WindowBufferSizeEvent && notify then 1 else 0;
      AdvanceSkip(recs, room, notify, units, pos, signals);
      signals' := signals + signal;
    }
  }

  /**
   * The labelled loop of `Read`: writes the units of the records into
   * `b` from the start while two bytes remain, and gives the bytes
   * written, the records consumed and the notifications sent.
   */
  method Fill(b: array<byte>, recs: seq<InputRecord>, notify: bool) returns (n: nat, pos: nat, signals: nat)
    modifies b
    ensures var s := Scan(recs, b.Length / 2, notify);
      n == 2 * |s.units| && pos == s.pos && signals == s.signals
      && b[..] == Units(s.units) + old(b[..])[n..]
  {
    ghost var room := b.Length / 2;
    ghost var units: seq<u16> := [];
    assert recs[0..] == recs;
    assert Join([], 0, 0, Scan(recs, room, notify)) == Scan(recs, room, notify);
    assert Progress(recs, room, notify, [], 0, 0);
    n, pos, signals := 0, 0, 0;
    while pos < |recs|
      invariant Progress(recs, room, notify, units, pos, signals)
      invariant n == 2 * |units|
      invariant b[..] == Units(units) + old(b[..])[n..]
    {
      var stop;
      n, pos, signals, stop, units := Step(b, recs, notify, n, pos, signals, room, units, old(b[..]));
      if stop {
        assert Scan(recs, room, notify) == Scanned(units, pos, signals);
        return;
      }
    }
    ScanDone(recs, room, notify, units, pos, signals);
    assert Scan(recs, room, notify) == Scanned(units, pos, signals);
  }
}
