/**
 * The command (main.go): flags are merged into the loaded configuration,
 * and `proc` runs the session, asking for X11 and agent forwarding only
 * when they are switched on and going on whatever those requests answer.
 *
 * The SSH library, the agent and the terminal are outside the model: each
 * step of `proc` that calls them is a `Stage`, and which stages fail is a
 * parameter.
 */
module Cli {
  import opened Base
  import opened ClientConfig

  /** The command-line flags `-config`, `-display`, `-X` and `-A`. */
  datatype Flags = Flags(config: string, display: string, forwardX11: bool, forwardAgent: bool)

  predicate NoFlags(flags: Flags)
  {
    flags.display == "" && !flags.forwardX11 && !flags.forwardAgent
  }

  /**
   * The overrides of `main`: a display replaces the one from the
   * environment and switches X11 forwarding on; `-X` and `-A` switch their
   * forwarding on. A flag never switches anything off.
   */
  method ApplyFlags(cfg: Config, flags: Flags) returns (cfg': Config)
    ensures cfg'.x11Display == if flags.display != "" then flags.display else cfg.x11Display
    ensures cfg'.forwardX11 <==> cfg.forwardX11 || flags.display != "" || flags.forwardX11
    ensures cfg'.forwardAgent <==> cfg.forwardAgent || flags.forwardAgent
    ensures cfg' == cfg.(x11Display := cfg'.x11Display, forwardX11 := cfg'.forwardX11, forwardAgent := cfg'.forwardAgent)
    ensures NoFlags(flags) ==> cfg' == cfg
  {
    cfg' := cfg;
    if flags.display != "" {
      cfg' := cfg'.(x11Display := flags.display);
      cfg' := cfg'.(forwardX11 := true);
    }
    if flags.forwardX11 {
      cfg' := cfg'.(forwardX11 := true);
    }
    if flags.forwardAgent {
      cfg' := cfg'.(forwardAgent := true);
    }
  }

  /** The calls of `proc` that reach the SSH library, the agent or the terminal. */
  datatype Stage =
    | Dial
    | NewSession
    | ForwardX11
    | ForwardAgent
    | OpenTty
    | TtySize
    | RequestPty
    | Shell
    | Wait

  /** The stages of the terminal session, in the order `proc` runs them. */
  const Terminal: seq<Stage> := [OpenTty, TtySize, RequestPty, Shell, Wait]

  /** The stages whose failure ends `proc`, in the order it runs them. */
  const Required: seq<Stage> := [Dial, NewSession] + Terminal

  /** The first of `stages` that fails. */
  function FirstFailing(stages: seq<Stage>, failing: set<Stage>): (r: Option<Stage>)
    ensures r.Some? ==> r.value in stages && r.value in failing
    ensures r.None? <==> forall i :: 0 <= i < |stages| ==> stages[i] !in failing
    decreases |stages|
  {
    if stages == [] then None
    else if stages[0] in failing then Some(stages[0])
    else
      var r := FirstFailing(stages[1..], failing);
      assert forall i :: 1 <= i < |stages| ==> stages[i] == stages[1..][i - 1];
      r
  }

  /** A failing stage with no failing stage before it is the one found, and the last that runs. */
  lemma {:induction false} FirstFailingAt(stages: seq<Stage>, failing: set<Stage>, i: nat)
    requires i < |stages| && stages[i] in failing
    requires forall j :: 0 <= j < i ==> stages[j] !in failing
    ensures FirstFailing(stages, failing) == Some(stages[i])
    ensures UpTo(stages, failing) == stages[..i + 1]
    decreases i
  {
    if i > 0 {
      assert stages[0] !in failing;
      FirstFailingAt(stages[1..], failing, i - 1);
      assert stages[..i + 1] == [stages[0]] + stages[1..][..i];
    }
  }

  /** When no stage fails, they all run. */
  lemma {:induction false} NoneFailing(stages: seq<Stage>, failing: set<Stage>)
    requires forall j :: 0 <= j < |stages| ==> stages[j] !in failing
    ensures UpTo(stages, failing) == stages
    decreases |stages|
  {
    if stages != [] {
      NoneFailing(stages[1..], failing);
      assert stages == [stages[0]] + stages[1..];
    }
  }

  /** The first failure of a run of stages is the first of its first part, or else the first of the rest. */
  lemma {:induction false} FirstFailingAppend(a: seq<Stage>, b: seq<Stage>, failing: set<Stage>)
    ensures FirstFailing(a + b, failing) == if FirstFailing(a, failing).Some? then FirstFailing(a, failing) else FirstFailing(b, failing)
    decreases |a|
  {
    if a != [] {
      assert (a + b)[1..] == a[1..] + b;
      FirstFailingAppend(a[1..], b, failing);
    } else {
      assert a + b == b;
    }
  }

  /** The stages that run: `stages` up to and including the first that fails, or all of them. */
  function UpTo(stages: seq<Stage>, failing: set<Stage>): seq<Stage>
    decreases |stages|
  {
    if stages == [] then []
    else if stages[0] in failing then [stages[0]]
    else [stages[0]] + UpTo(stages[1..], failing)
  }

  /** The stages that run are a prefix of `stages` that ends at the first failure, or all of them. */
  lemma {:induction false} UpToPrefix(stages: seq<Stage>, failing: set<Stage>)
    ensures var r := UpTo(stages, failing);
      |r| <= |stages| && r == stages[..|r|]
      && (FirstFailing(stages, failing).Some? ==> 0 < |r| && r[|r| - 1] == FirstFailing(stages, failing).value)
      && (FirstFailing(stages, failing).None? ==> r == stages)
    decreases |stages|
  {
    if stages != [] && stages[0] !in failing {
      UpToPrefix(stages[1..], failing);
      assert stages == [stages[0]] + stages[1..];
    }
  }

  /** Runs `stage`, records it, and says whether it failed. */
  method Run(stage: Stage, failing: set<Stage>, ran: seq<Stage>) returns (ran': seq<Stage>, failed: bool)
    ensures ran' == ran + [stage] && (failed <==> stage in failing)
  {
    ran' := ran + [stage];
    failed := stage in failing;
  }

  /** `dialSsh` and `NewSession`. */
  method Connect(failing: set<Stage>) returns (ran: seq<Stage>, err: Option<Stage>)
    ensures err == FirstFailing([Dial, NewSession], failing)
    ensures ran == UpTo([Dial, NewSession], failing)
    ensures err.Some? <==> Dial in failing || NewSession in failing
  {
    var failed;
    ran, failed := Run(Dial, failing, []);
    if failed {
      return ran, Some(Dial);
    }
    ran, failed := Run(NewSession, failing, ran);
    if failed {
      return ran, Some(NewSession);
    }
    assert [Dial, NewSession][1..] == [NewSession];
    assert UpTo([NewSession], failing) == [NewSession];
    return ran, None;
  }

  /** The forwarding requests the configuration switches on, X11 first. */
  function Forwarded(cfg: Config): seq<Stage>
  {
    (if cfg.forwardX11 then [ForwardX11] else []) + (if cfg.forwardAgent then [ForwardAgent] else [])
  }

  /** The forwarding requests the configuration switches on; what they answer is discarded. */
  method RequestForwarding(cfg: Config, failing: set<Stage>, ran: seq<Stage>) returns (ran': seq<Stage>)
    ensures ran' == ran + Forwarded(cfg)
  {
    ran' := ran;
    var failed;
    if cfg.forwardX11 {
      ran', failed := Run(ForwardX11, failing, ran');
    }
    if cfg.forwardAgent {
      ran', failed := Run(ForwardAgent, failing, ran');
    }
  }

  /** `OpenTty`, the terminal size, `RequestPty`, `Shell` and `Wait`, up to the first that fails; `ran` lists those it ran. */
  method RunTerminal(failing: set<Stage>) returns (ran: seq<Stage>, err: Option<Stage>)
    ensures err == FirstFailing(Terminal, failing)
    ensures ran == UpTo(Terminal, failing)
    ensures 0 < |ran| && ran == Terminal[..|ran|]
    ensures err.Some? ==> ran[|ran| - 1] == err.value
    ensures err.None? ==> ran == Terminal
  {
    var failed;
    ran, failed := Run(OpenTty, failing, []);
    assert ran == Terminal[..1];
    if failed {
      FirstFailingAt(Terminal, failing, 0);
      return ran, Some(OpenTty);
    }
    ran, failed := Run(TtySize, failing, ran);
    assert ran == Terminal[..2];
    if failed {
      FirstFailingAt(Terminal, failing, 1);
      return ran, Some(TtySize);
    }
    ran, failed := Run(RequestPty, failing, ran);
    assert ran == Terminal[..3];
    if failed {
      FirstFailingAt(Terminal, failing, 2);
      return ran, Some(RequestPty);
    }
    ran, failed := Run(Shell, failing, ran);
    assert ran == Terminal[..4];
    if failed {
      FirstFailingAt(Terminal, failing, 3);
      return ran, Some(Shell);
    }
    ran, failed := Run(Wait, failing, ran);
    assert ran == Terminal;
    if failed {
      FirstFailingAt(Terminal, failing, 4);
      return ran, Some(Wait);
    }
    NoneFailing(Terminal, failing);
    return ran, None;
  }

  /**
   * `proc`: dials, opens a session, asks for the forwarding the
   * configuration switches on, then opens the terminal and runs the shell.
   * `ran` lists the stages it ran, in order; `err` is the stage whose
   * failure ended it, and never a forwarding request.
   */
  method Proc(cfg: Config, failing: set<Stage>) returns (ran: seq<Stage>, err: Option<Stage>)
    ensures err == FirstFailing(Required, failing)
    ensures ran == ProcTrace(cfg, failing)
    ensures ForwardX11 in ran <==> cfg.forwardX11 && Dial !in failing && NewSession !in failing
    ensures ForwardAgent in ran <==> cfg.forwardAgent && Dial !in failing && NewSession !in failing
    ensures |ran| > 0 && ran[0] == Dial
    ensures err == None ==> ran[|ran| - 1] == Wait
  {
    var connected;
    connected, err := Connect(failing);
    if err.Some? {
      ran := connected;
    } else {
      var forwarded := RequestForwarding(cfg, failing, connected);
      var session;
      session, err := RunTerminal(failing);
      ran := forwarded + session;
      ProcTraceConnected(cfg, failing, connected, session);
    }
    ProcTraceStages(cfg, failing);
    FirstFailingAppend([Dial, NewSession], Terminal, failing);
  }

  /** Once dialing and the session succeed, the forwarding requests and the terminal stages follow them. */
  lemma ProcTraceConnected(cfg: Config, failing: set<Stage>, connected: seq<Stage>, session: seq<Stage>)
    requires Dial !in failing && NewSession !in failing
    requires connected == UpTo([Dial, NewSession], failing) && session == UpTo(Terminal, failing)
    ensures ProcTrace(cfg, failing) == connected + Forwarded(cfg) + session
  {
  }

  /**
   * The stages `proc` runs: dialing and the session up to the first that
   * fails; once both succeed, the forwarding requests that are switched
   * on and the terminal stages up to the first that fails.
   */
  function ProcTrace(cfg: Config, failing: set<Stage>): seq<Stage>
  {
    UpTo([Dial, NewSession], failing)
      + if Dial in failing || NewSession in failing then [] else Forwarded(cfg) + UpTo(Terminal, failing)
  }

  /** Only stages of the run are run. */
  lemma {:induction false} UpToStages(stages: seq<Stage>, failing: set<Stage>, s: Stage)
    ensures s in UpTo(stages, failing) ==> s in stages
    decreases |stages|
  {
    if stages != [] && stages[0] !in failing {
      UpToStages(stages[1..], failing, s);
    }
  }

  /** The terminal session makes no forwarding request, and ends with `Wait` when nothing in it fails. */
  lemma SessionStages(failing: set<Stage>)
    ensures ForwardX11 !in UpTo(Terminal, failing) && ForwardAgent !in UpTo(Terminal, failing)
    ensures FirstFailing(Terminal, failing) == None ==> UpTo(Terminal, failing)[|UpTo(Terminal, failing)| - 1] == Wait
  {
    UpToStages(Terminal, failing, ForwardX11);
    UpToStages(Terminal, failing, ForwardAgent);
    UpToPrefix(Terminal, failing);
  }

  /**
   * A forwarding request is made exactly when it is switched on and the
   * session opened; the run starts by dialing and, when nothing fails,
   * ends by waiting for the shell.
   */
  lemma ProcTraceStages(cfg: Config, failing: set<Stage>)
    ensures var t := ProcTrace(cfg, failing);
      (ForwardX11 in t <==> cfg.forwardX11 && Dial !in failing && NewSession !in failing)
      && (ForwardAgent in t <==> cfg.forwardAgent && Dial !in failing && NewSession !in failing)
      && 0 < |t| && t[0] == Dial
      && (FirstFailing(Required, failing) == None ==> t[|t| - 1] == Wait)
  {
    FirstFailingAppend([Dial, NewSession], Terminal, failing);
    if Dial in failing {
      FirstFailingAt([Dial, NewSession], failing, 0);
      assert ProcTrace(cfg, failing) == [Dial];
    } else if NewSession in failing {
      FirstFailingAt([Dial, NewSession], failing, 1);
      assert ProcTrace(cfg, failing) == [Dial, NewSession];
    } else {
      NoneFailing([Dial, NewSession], failing);
      SessionStages(failing);
      var session := UpTo(Terminal, failing);
      ProcTraceConnected(cfg, failing, [Dial, NewSession], session);
    }
  }

  /** How the command ends: `log.Fatal` with one of three causes, or a clean exit. */
  datatype Exit = NoHost | LoadFailed(error: LoadError) | SessionFailed(stage: Stage) | Done

  /**
   * `main`: the host argument is required, the configuration is loaded and
   * merged with the flags, and `proc` runs on the result. `cfg` is the
   * configuration `proc` ran with.
   */
  method RunCommand(flags: Flags, host: string, env: Env, files: map<string, Settings>, failing: set<Stage>)
    returns (exit: Exit, cfg: Option<Config>, ran: seq<Stage>)
    ensures host == "" ==> exit == NoHost && cfg == None && ran == []
    ensures host != "" && env.currentUser.None? ==> exit == LoadFailed(NoCurrentUser) && cfg == None && ran == []
    ensures host != "" && env.currentUser.Some? ==>
      var loaded := LoadConfig(host, flags.config, env, files).value;
      cfg == Some(loaded.(x11Display := if flags.display != "" then flags.display else loaded.x11Display,
                          forwardX11 := loaded.forwardX11 || flags.display != "" || flags.forwardX11,
                          forwardAgent := loaded.forwardAgent || flags.forwardAgent))
      && (ForwardX11 in ran <==> cfg.value.forwardX11 && Dial !in failing && NewSession !in failing)
      && (ForwardAgent in ran <==> cfg.value.forwardAgent && Dial !in failing && NewSession !in failing)
      && exit == (if FirstFailing(Required, failing) == None then Done else SessionFailed(FirstFailing(Required, failing).value))
  {
    cfg := None;
    ran := [];
    if host == "" {
      return NoHost, cfg, ran;
    }
    var loaded := LoadConfig(host, flags.config, env, files);
    if loaded.Err? {
      return LoadFailed(loaded.error), cfg, ran;
    }
    var c := ApplyFlags(loaded.value, flags);
    cfg := Some(c);
    var err;
    ran, err := Proc(c, failing);
    if err.Some? {
      return SessionFailed(err.value), cfg, ran;
    }
    return Done, cfg, ran;
  }
}
