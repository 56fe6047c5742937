/**
 * The copy of the console input reader in tty/tty_windows.go. It filters
 * the records exactly as tty/sys/windows/reader.go does, but its space
 * check looks at the length of the whole buffer (`len(b) < 2`) instead of
 * the room left after the bytes already written (`len(b[n:]) < 2`). With
 * a buffer of two bytes or more it never stops early, and the write of a
 * unit past the end of the buffer is a run-time panic.
 */
module TtyReader {
  import opened Base
  import opened ConsoleReader

  /** What a pass of the loop comes to: a normal end, or a write out of range at byte offset `at`. */
  datatype Outcome = Finished(scan: Scanned) | OutOfRange(at: nat)

  /**
   * The loop of `Read` in tty/tty_windows.go, as written, over a buffer of
   * `size` bytes of which `n` are already written: a unit that fits is
   * written, a buffer shorter than two bytes stops the pass, and a unit
   * that does not fit in a longer buffer is written out of range.
   */
  function GuardedScan(recs: seq<InputRecord>, size: nat, n: nat, notify: bool): (r: Outcome)
    ensures r.OutOfRange? ==> size >= 2 && r.at >= n && r.at + 2 > size
    decreases |recs|
  {
    if recs == [] then Finished(Scanned([], 0, 0))
    else if Emits(recs[0]) then
      if size < 2 then Finished(Scanned([], 0, 0))
      else if n + 2 > size then OutOfRange(n)
      else
        match GuardedScan(recs[1..], size, n + 2, notify)
        case OutOfRange(at) => OutOfRange(at)
        case Finished(s) => Finished(Scanned([recs[0].key.unicodeChar] + s.units, s.pos + 1, s.signals))
    else
      match GuardedScan(recs[1..], size, n, notify)
      case OutOfRange(at) => OutOfRange(at)
      case Finished(s) => Finished(Scanned(s.units, s.pos + 1, s.signals + if Signals(recs[0], notify) then 1 else 0))
  }

  /** A key press for character `c`. */
  function Press(c: u16): InputRecord
  {
    InputRecord(KeyEvent, KeyEventRecord(1, 1, 0x41, 0x1e, c, 0))
  }

  /**
   * Two typed characters and a two-byte buffer: the first unit fills the
   * buffer, the guard lets the second through, and it is written at offset
   * 2 of a 2-byte buffer. The reader of tty/sys/windows/reader.go writes the
   * first and keeps the second for the next call.
   */
  lemma ShortBufferOutOfRange()
    ensures GuardedScan([Press(0x61), Press(0x62)], 2, 0, false) == OutOfRange(2)
    ensures Scan([Press(0x61), Press(0x62)], 2 / 2, false) == Scanned([0x61], 1, 0)
  {
    var recs := [Press(0x61), Press(0x62)];
    assert recs[1..] == [Press(0x62)];
    assert recs[1..][1..] == [];
  }

  /** With a buffer of two bytes or more, the as-written pass writes every unit and consumes every record, if it can. */
  lemma {:induction false} GuardedScanLong(recs: seq<InputRecord>, size: nat, n: nat, notify: bool)
    requires 2 <= size && n <= size
    ensures GuardedScan(recs, size, n, notify).OutOfRange? <==> n + 2 * |Filter(recs)| > size
    ensures GuardedScan(recs, size, n, notify).Finished? ==>
      GuardedScan(recs, size, n, notify).scan == Scanned(Filter(recs), |recs|, SignalCount(recs, notify))
    decreases |recs|
  {
    if recs != [] {
      if Emits(recs[0]) {
        assert |Filter(recs)| == 1 + |Filter(recs[1..])|;
        if n + 2 <= size {
          GuardedScanLong(recs[1..], size, n + 2, notify);
        }
      } else {
        GuardedScanLong(recs[1..], size, n, notify);
      }
    }
  }

  /** With a buffer shorter than two bytes, the as-written pass is the one of tty/sys/windows/reader.go. */
  lemma {:induction false} GuardedScanShort(recs: seq<InputRecord>, size: nat, n: nat, notify: bool)
    requires size < 2
    ensures GuardedScan(recs, size, n, notify) == Finished(Scan(recs, 0, notify))
    decreases |recs|
  {
    if recs != [] && !Emits(recs[0]) {
      GuardedScanShort(recs[1..], size, n, notify);
    }
  }

  /**
   * The guard of tty/tty_windows.go is safe exactly when the buffer is
   * shorter than two bytes or holds every unit of the batch; then it does
   * what the reader of tty/sys/windows/reader.go does.
   */
  lemma GuardedScanAgrees(recs: seq<InputRecord>, size: nat, notify: bool)
    ensures GuardedScan(recs, size, 0, notify).OutOfRange? <==> (size >= 2 && 2 * |Filter(recs)| > size)
    ensures GuardedScan(recs, size, 0, notify).Finished? ==>
      GuardedScan(recs, size, 0, notify).scan == Scan(recs, size / 2, notify)
  {
    if size < 2 {
      GuardedScanShort(recs, size, 0, notify);
    } else {
      GuardedScanLong(recs, size, 0, notify);
      if 2 * |Filter(recs)| <= size {
        ScanAll(recs, size / 2, notify);
        ScanConsumed(recs, size / 2, notify);
        assert recs[..|recs|] == recs;
      }
    }
  }
}
