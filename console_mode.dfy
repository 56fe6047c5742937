/**
 * Console modes on Windows (`makeRaw` and `termRestore` in
 * tty/tty_windows.go): the input and output modes are switched to raw
 * mode one call at a time, with the input mode rolled back when the
 * output mode cannot be set, and are restored when the terminal is
 * closed.
 *
 * The console is a map from handles to 32-bit modes. Any call may fail:
 * the calls that fail are given by their positions in the log of calls,
 * and a call on a handle the console does not know fails too. An error is
 * identified by the position of the call that returned it.
 */
module ConsoleMode {
  import opened Base

  // Input mode flags (wincon.h).
  const EnableProcessedInput: bv32 := 0x1
  const EnableLineInput: bv32 := 0x2
  const EnableEchoInput: bv32 := 0x4
  const EnableWindowInput: bv32 := 0x8
  const EnableMouseInput: bv32 := 0x10
  const EnableVirtualTerminalInput: bv32 := 0x200

  // Output mode flags (wincon.h).
  const EnableVirtualTerminalProcessing: bv32 := 0x4
  const DisableNewlineAutoReturn: bv32 := 0x8

  /** The input flags raw mode turns off: line editing, echo, Ctrl+C processing and mouse events. */
  const CookedInput: bv32 := EnableLineInput | EnableEchoInput | EnableProcessedInput | EnableMouseInput
  /** The input flags raw mode turns on: window-size events and VT sequences for keys. */
  const RawInput: bv32 := EnableWindowInput | EnableVirtualTerminalInput
  /** The output flags raw mode turns on: VT sequences and no automatic carriage return. */
  const RawOutput: bv32 := EnableVirtualTerminalProcessing | DisableNewlineAutoReturn

  /** The raw input mode made from input mode `m`. */
  function RawInputMode(m: bv32): (r: bv32)
    ensures r & CookedInput == 0 && r & RawInput == RawInput
    ensures r & !(CookedInput | RawInput) == m & !(CookedInput | RawInput)
  {
    (m & !CookedInput) | RawInput
  }

  /** The raw output mode made from output mode `m`. */
  function RawOutputMode(m: bv32): (r: bv32)
    ensures r & RawOutput == RawOutput && r & !RawOutput == m & !RawOutput
  {
    m | RawOutput
  }

  /** Switching to raw mode twice is switching once. */
  lemma RawModesIdempotent(m: bv32)
    ensures RawInputMode(RawInputMode(m)) == RawInputMode(m)
    ensures RawOutputMode(RawOutputMode(m)) == RawOutputMode(m)
  {
  }

  type Handle = nat

  datatype Call = GetMode(h: Handle) | SetMode(h: Handle, mode: bv32)

  /** `termState`: the modes to go back to. */
  datatype TermState = TermState(stin: bv32, stout: bv32)

  class Console {
    var modes: map<Handle, bv32>
    var log: seq<Call>
    /** The positions in the log of the calls that fail. */
    const failing: set<nat>

    constructor (modes: map<Handle, bv32>, failing: set<nat>)
      ensures this.modes == modes && log == [] && this.failing == failing
    {
      this.modes := modes;
      log := [];
      this.failing := failing;
    }

    /** Whether the call at position `k` of the log, on handle `h`, fails. */
    predicate Fails(k: nat, h: Handle)
      reads this
    {
      k in failing || h !in modes
    }

    /** `GetConsoleMode`. */
    method GetConsoleMode(h: Handle) returns (r: Result<bv32, nat>)
      modifies this
      ensures log == old(log) + [GetMode(h)] && modes == old(modes)
      ensures r == if old(Fails(|log|, h)) then Err(|old(log)|) else Ok(modes[h])
    {
      if Fails(|log|, h) {
        r := Err(|log|);
      } else {
        r := Ok(modes[h]);
      }
      log := log + [GetMode(h)];
    }

    /** `SetConsoleMode`: a failed call changes no mode. */
    method SetConsoleMode(h: Handle, m: bv32) returns (err: Option<nat>)
      modifies this
      ensures log == old(log) + [SetMode(h, m)]
      ensures old(Fails(|log|, h)) ==> err == Some(|old(log)|) && modes == old(modes)
      ensures !old(Fails(|log|, h)) ==> err == None && modes == old(modes)[h := m]
    {
      if Fails(|log|, h) {
        err := Some(|log|);
      } else {
        err := None;
        modes := modes[h := m];
      }
      log := log + [SetMode(h, m)];
    }
  }

  /**
   * `makeRaw`: reads and sets the input mode, then reads and sets the
   * output mode. The first failure is returned; once the input mode has
   * been set, a failure on the output side first tries to put the input
   * mode back (that attempt's own failure is ignored).
   */
  method MakeRaw(c: Console, stdin: Handle, stdout: Handle) returns (r: Result<TermState, nat>)
    modifies c
    ensures var k := |old(c.log)|; var m := old(c.modes);
      if k in c.failing || stdin !in m then
        r == Err(k) && c.modes == m && c.log == old(c.log) + [GetMode(stdin)]
      else
        var stin := m[stdin];
        var raw := RawInputMode(stin);
        if k + 1 in c.failing then
          r == Err(k + 1) && c.modes == m && c.log == old(c.log) + [GetMode(stdin), SetMode(stdin, raw)]
        else
          var mid := m[stdin := raw];
          if k + 2 in c.failing || stdout !in mid then
            r == Err(k + 2)
            && c.modes == (if k + 3 in c.failing then mid else m)
            && c.log == old(c.log) + [GetMode(stdin), SetMode(stdin, raw), GetMode(stdout), SetMode(stdin, stin)]
          else
            var stout := mid[stdout];
            var rawOut := mid[stdout := RawOutputMode(stout)];
            if k + 3 in c.failing then
              r == Err(k + 3)
              && c.modes == (if k + 4 in c.failing then mid else mid[stdin := stin])
              && c.log == old(c.log) + [GetMode(stdin), SetMode(stdin, raw), GetMode(stdout),
                                        SetMode(stdout, RawOutputMode(stout)), SetMode(stdin, stin)]
            else
              r == Ok(TermState(stin, stout)) && c.modes == rawOut
              && c.log == old(c.log) + [GetMode(stdin), SetMode(stdin, raw), GetMode(stdout),
                                        SetMode(stdout, RawOutputMode(stout))]
  {
    var stin := c.GetConsoleMode(stdin);
    if stin.Err? {
      return Err(stin.error);
    }
    var raw := RawInputMode(stin.value);
    var err := c.SetConsoleMode(stdin, raw);
    if err.Some? {
      return Err(err.value);
    }
    var stout := c.GetConsoleMode(stdout);
    if stout.Err? {
      var _ := c.SetConsoleMode(stdin, stin.value);
      return Err(stout.error);
    }
    raw := RawOutputMode(stout.value);
    err := c.SetConsoleMode(stdout, raw);
    if err.Some? {
      var _ := c.SetConsoleMode(stdin, stin.value);
      return Err(err.value);
    }
    return Ok(TermState(stin.value, stout.value));
  }

  /**
   * `termRestore`: sets both modes back, the input mode first, whatever
   * happens to the first call, and reports the input side's error first.
   */
  method TermRestore(c: Console, stdin: Handle, stdout: Handle, state: TermState) returns (err: Option<nat>)
    modifies c
    ensures var k := |old(c.log)|; var m := old(c.modes);
      var first := if k in c.failing || stdin !in m then m else m[stdin := state.stin];
      c.log == old(c.log) + [SetMode(stdin, state.stin), SetMode(stdout, state.stout)]
      && c.modes == (if k + 1 in c.failing || stdout !in m then first else first[stdout := state.stout])
      && err == (if k in c.failing || stdin !in m then Some(k)
                 else if k + 1 in c.failing || stdout !in m then Some(k + 1)
                 else None)
  {
    var err1 := c.SetConsoleMode(stdin, state.stin);
    var err2 := c.SetConsoleMode(stdout, state.stout);
    if err1.Some? {
      return err1;
    }
    return err2;
  }

  /**
   * The console as `openTty` and `close` leave it: raw mode on the way in
   * and the saved modes on the way out. When no call fails, both modes are
   * back to what they were.
   */
  method RawSession(c: Console, stdin: Handle, stdout: Handle) returns (err: Option<nat>)
    requires stdin != stdout
    modifies c
    ensures ((forall j :: |old(c.log)| <= j < |old(c.log)| + 6 ==> j !in c.failing)
             && stdin in old(c.modes) && stdout in old(c.modes))
            ==> err == None && c.modes == old(c.modes)
  {
    var prev := MakeRaw(c, stdin, stdout);
    if prev.Err? {
      return Some(prev.error);
    }
    err := TermRestore(c, stdin, stdout, prev.value);
  }
}
