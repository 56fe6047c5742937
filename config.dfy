/**
 * Client configuration and host-key checking (config.go).
 *
 * The ssh_config parser, the known_hosts parser, the user database and the
 * file system are outside the model. A loaded ssh_config file is the map
 * from option name to the value it gives for the host being connected to;
 * a known_hosts file is the sequence of items its parser yields.
 */
module ClientConfig {
  import opened Base

  /** What an ssh_config file gives for the host: option name to value. */
  type Settings = map<string, string>

  /** `user.Current()`, when it succeeds. */
  datatype User = User(username: string, homeDir: string)

  /** What `loadConfig` reads from the process. */
  datatype Env = Env(currentUser: Option<User>, windows: bool, programData: string, display: string)

  /** The fields of `config`. */
  datatype Config = Config(
    user: string,
    hostname: string,
    port: string,
    userKnownHosts: string,
    globalKnownHosts: string,
    forwardX11: bool,
    forwardAgent: bool,
    xAuthLocation: string,
    x11Display: string)

  datatype LoadError = NoCurrentUser

  /** The path separator of `filepath.Join`. */
  function Separator(windows: bool): string
  {
    if windows then "\\" else "/"
  }

  /** `filepath.Join` of a directory and two more elements (path cleaning is not modelled). */
  function Join(windows: bool, dir: string, a: string, b: string): (r: string)
    ensures |r| == |dir| + |a| + |b| + 2
    ensures r[..|dir|] == dir && r[|r| - |b|..] == b
  {
    dir + Separator(windows) + a + Separator(windows) + b
  }

  function DefaultUserConfigLocation(env: Env, user: User): string
  {
    Join(env.windows, user.homeDir, ".ssh", "config")
  }

  function DefaultSystemConfigLocation(env: Env): string
  {
    if env.windows then Join(true, env.programData, "ssh", "ssh_config") else "/etc/ssh/ssh_config"
  }

  function DefaultUserKnownHostsFile(env: Env, user: User): string
  {
    Join(env.windows, user.homeDir, ".ssh", "known_hosts")
  }

  function DefaultGlobalKnownHostsFile(env: Env): string
  {
    if env.windows then Join(true, env.programData, "ssh", "ssh_known_hosts") else "/etc/ssh/ssh_known_hosts"
  }

  /** `loadSshConfig`: a file that cannot be opened or decoded comes back as no configuration at all. */
  function LoadSshConfig(files: map<string, Settings>, path: string): (r: Option<Settings>)
    ensures r.Some? <==> path in files
  {
    if path in files then Some(files[path]) else None
  }

  /** The value a loaded file gives for `name`; an absent file or option gives "". */
  function Value(settings: Option<Settings>, name: string): string
  {
    if settings.Some? && name in settings.value then settings.value[name] else ""
  }

  /** The `get` closure of `loadConfig`: the user file first, then the system file, then the fallback. */
  function Get(userConfig: Option<Settings>, systemConfig: Option<Settings>, name: string, fallback: string): (r: string)
    ensures Value(userConfig, name) != "" ==> r == Value(userConfig, name)
    ensures Value(userConfig, name) == "" && Value(systemConfig, name) != "" ==> r == Value(systemConfig, name)
    ensures Value(userConfig, name) == "" && Value(systemConfig, name) == "" ==> r == fallback
    ensures fallback != "" ==> r != ""
  {
    var val := Value(userConfig, name);
    var val := if val == "" then Value(systemConfig, name) else val;
    if val == "" then fallback else val
  }

  /** A file that failed to load reads exactly like a file that sets nothing. */
  lemma FailedLoadIsAbsent(userConfig: Option<Settings>, systemConfig: Option<Settings>, name: string, fallback: string)
    ensures Get(None, systemConfig, name, fallback) == Get(Some(map[]), systemConfig, name, fallback)
    ensures Get(userConfig, None, name, fallback) == Get(userConfig, Some(map[]), name, fallback)
  {
  }

  /** The user ssh_config: the `-config` path, or ~/.ssh/config when it is empty. */
  function UserConfigPath(cfgPath: string, env: Env, user: User): string
  {
    if cfgPath == "" then DefaultUserConfigLocation(env, user) else cfgPath
  }

  /** `loadConfig`: fails only when the current user cannot be found. */
  function LoadConfig(host: string, cfgPath: string, env: Env, files: map<string, Settings>): (r: Result<Config, LoadError>)
    ensures r.Ok? <==> env.currentUser.Some?
    ensures r.Ok? ==> r.value.x11Display == env.display
  {
    match env.currentUser
    case None => Err(NoCurrentUser)
    case Some(user) =>
      var userConfig := LoadSshConfig(files, UserConfigPath(cfgPath, env, user));
      var systemConfig := LoadSshConfig(files, DefaultSystemConfigLocation(env));
      Ok(Config(
        user := Get(userConfig, systemConfig, "User", user.username),
        hostname := Get(userConfig, systemConfig, "Hostname", host),
        port := Get(userConfig, systemConfig, "Port", "22"),
        userKnownHosts := Get(userConfig, systemConfig, "UserKnownHostsFile", DefaultUserKnownHostsFile(env, user)),
        globalKnownHosts := Get(userConfig, systemConfig, "GlobalKnownHostsFile", DefaultGlobalKnownHostsFile(env)),
        forwardX11 := Get(userConfig, systemConfig, "ForwardX11", "no") == "yes",
        forwardAgent := Get(userConfig, systemConfig, "ForwardAgent", "no") == "yes",
        xAuthLocation := Get(userConfig, systemConfig, "XAuthLocation", "xauth"),
        x11Display := env.display))
  }

  /** Neither file sets `name` (or neither file loaded). */
  predicate Unset(host: string, cfgPath: string, env: Env, files: map<string, Settings>, name: string)
    requires env.currentUser.Some?
  {
    Value(LoadSshConfig(files, UserConfigPath(cfgPath, env, env.currentUser.value)), name) == ""
    && Value(LoadSshConfig(files, DefaultSystemConfigLocation(env)), name) == ""
  }

  /** With nothing configured, the fields take their defaults. */
  lemma LoadConfigDefaults(host: string, cfgPath: string, env: Env, files: map<string, Settings>)
    requires env.currentUser.Some?
    ensures var c := LoadConfig(host, cfgPath, env, files).value;
      var user := env.currentUser.value;
      (Unset(host, cfgPath, env, files, "User") ==> c.user == user.username)
      && (Unset(host, cfgPath, env, files, "Hostname") ==> c.hostname == host)
      && (Unset(host, cfgPath, env, files, "Port") ==> c.port == "22")
      && (Unset(host, cfgPath, env, files, "UserKnownHostsFile") ==> c.userKnownHosts == DefaultUserKnownHostsFile(env, user))
      && (Unset(host, cfgPath, env, files, "GlobalKnownHostsFile") ==> c.globalKnownHosts == DefaultGlobalKnownHostsFile(env))
      && (Unset(host, cfgPath, env, files, "ForwardX11") ==> !c.forwardX11)
      && (Unset(host, cfgPath, env, files, "ForwardAgent") ==> !c.forwardAgent)
      && (Unset(host, cfgPath, env, files, "XAuthLocation") ==> c.xAuthLocation == "xauth")
  {
  }

  /**
   * Forwarding is on exactly when the first file that sets the option sets
   * it to "yes", spelled exactly so.
   */
  lemma ForwardingIffYes(host: string, cfgPath: string, env: Env, files: map<string, Settings>)
    requires env.currentUser.Some?
    ensures var c := LoadConfig(host, cfgPath, env, files).value;
      var u := LoadSshConfig(files, UserConfigPath(cfgPath, env, env.currentUser.value));
      var s := LoadSshConfig(files, DefaultSystemConfigLocation(env));
      (c.forwardX11 <==> Value(u, "ForwardX11") == "yes" || (Value(u, "ForwardX11") == "" && Value(s, "ForwardX11") == "yes"))
      && (c.forwardAgent <==> Value(u, "ForwardAgent") == "yes" || (Value(u, "ForwardAgent") == "" && Value(s, "ForwardAgent") == "yes"))
  {
  }

  // ---- Host keys ----

  /** A public key, by its type name and its wire encoding (`Type()` and `Marshal()`). */
  datatype PublicKey = PublicKey(keyType: string, wire: seq<byte>)

  /** What the known_hosts parser yields: an entry, or the error of a line it could not parse. */
  datatype KnownHostsItem = Entry(hosts: seq<string>, key: PublicKey) | BadLine(reason: string)

  /** A known_hosts file: one that cannot be opened for another reason than being absent, or its items. */
  datatype KnownHostsFile = Unreadable(reason: string) | Listing(items: seq<KnownHostsItem>)

  /** The errors a host-key callback can return. `NotExist` is the one `errors.Is(err, os.ErrNotExist)` recognises. */
  datatype HostKeyError =
    | NotExist(path: string)
    | OpenFailed(reason: string)
    | ParseError(reason: string)
    | NoMatch(hostname: string)
    | NotChecked

  /** A callback made by `knownHostsHostKey`. */
  datatype Callback = KnownHosts(path: string, defaultPort: string)

  predicate HasSuffix(s: string, suffix: string)
  {
    |suffix| <= |s| && s[|s| - |suffix|..] == suffix
  }

  /** The host name with a trailing `:<defaultPort>` removed; any other ending is kept. */
  function StripPort(hostname: string, defaultPort: string): (r: string)
    ensures HasSuffix(hostname, ":" + defaultPort) ==> r + ":" + defaultPort == hostname
    ensures !HasSuffix(hostname, ":" + defaultPort) ==> r == hostname
  {
    if HasSuffix(hostname, ":" + defaultPort) then hostname[..|hostname| - (1 + |defaultPort|)] else hostname
  }

  /** `host:port` with the default port becomes `host`. */
  lemma StripPortOfAddress(host: string, port: string)
    ensures StripPort(host + ":" + port, port) == host
  {
    var a := host + ":" + port;
    assert a[|a| - |":" + port|..] == ":" + port;
    assert a[..|a| - (1 + |port|)] == host;
  }

  /** An entry that accepts `key` for `hostname`: the host is listed, and the type and the wire bytes are equal. */
  predicate Accepts(item: KnownHostsItem, hostname: string, key: PublicKey)
  {
    item.Entry? && hostname in item.hosts && item.key.keyType == key.keyType && item.key.wire == key.wire
  }

  /** The outcome of the matching loop over `items`: None accepts the key. */
  function Verdict(items: seq<KnownHostsItem>, hostname: string, key: PublicKey): (r: Option<HostKeyError>)
    ensures r.Some? ==> r.value.ParseError? || r.value == NoMatch(hostname)
    decreases |items|
  {
    if items == [] then Some(NoMatch(hostname))
    else if items[0].BadLine? then Some(ParseError(items[0].reason))
    else if Accepts(items[0], hostname, key) then None
    else Verdict(items[1..], hostname, key)
  }

  /** The key is accepted exactly when an entry accepts it before any unparsable line. */
  lemma {:induction false} VerdictAccepts(items: seq<KnownHostsItem>, hostname: string, key: PublicKey)
    ensures Verdict(items, hostname, key) == None <==>
      exists i :: 0 <= i < |items| && Accepts(items[i], hostname, key) && forall j :: 0 <= j < i ==> !items[j].BadLine?
    decreases |items|
  {
    if items != [] && !items[0].BadLine? && !Accepts(items[0], hostname, key) {
      VerdictAccepts(items[1..], hostname, key);
      if Verdict(items, hostname, key) == None {
        var i :| 0 <= i < |items[1..]| && Accepts(items[1..][i], hostname, key)
          && forall j :: 0 <= j < i ==> !items[1..][j].BadLine?;
        assert Accepts(items[i + 1], hostname, key);
        assert forall j :: 0 <= j < i + 1 ==> !items[j].BadLine? by {
          forall j | 0 <= j < i + 1 ensures !items[j].BadLine? {
            if j > 0 { assert items[j] == items[1..][j - 1]; }
          }
        }
      }
      if exists i :: 0 <= i < |items| && Accepts(items[i], hostname, key) && forall j :: 0 <= j < i ==> !items[j].BadLine? {
        var i :| 0 <= i < |items| && Accepts(items[i], hostname, key) && forall j :: 0 <= j < i ==> !items[j].BadLine?;
        assert i > 0;
        assert Accepts(items[1..][i - 1], hostname, key);
        assert forall j :: 0 <= j < i - 1 ==> !items[1..][j].BadLine? by {
          forall j | 0 <= j < i - 1 ensures !items[1..][j].BadLine? {
            assert items[1..][j] == items[j + 1];
          }
        }
      }
    }
  }

  /** With no accepting entry and no unparsable line, the answer is the "NO MATCH ENTRIES FOUND" error. */
  lemma {:induction false} VerdictNoMatch(items: seq<KnownHostsItem>, hostname: string, key: PublicKey)
    ensures Verdict(items, hostname, key) == Some(NoMatch(hostname)) <==>
      forall i :: 0 <= i < |items| ==> !items[i].BadLine? && !Accepts(items[i], hostname, key)
    decreases |items|
  {
    if items != [] && !items[0].BadLine? && !Accepts(items[0], hostname, key) {
      VerdictNoMatch(items[1..], hostname, key);
      assert forall i :: 1 <= i < |items| ==> items[i] == items[1..][i - 1];
    }
  }

  /** The first unparsable line that comes before any accepting entry aborts the check with its error. */
  lemma {:induction false} VerdictFirstError(items: seq<KnownHostsItem>, hostname: string, key: PublicKey, i: nat)
    requires i < |items| && items[i].BadLine?
    requires forall j :: 0 <= j < i ==> !items[j].BadLine? && !Accepts(items[j], hostname, key)
    ensures Verdict(items, hostname, key) == Some(ParseError(items[i].reason))
    decreases i
  {
    if i > 0 {
      assert forall j :: 0 <= j < i - 1 ==> items[1..][j] == items[j + 1];
      VerdictFirstError(items[1..], hostname, key, i - 1);
    }
  }

  /** The loop of the `knownHostsHostKey` callback over the parsed entries. */
  method MatchKnownHosts(items: seq<KnownHostsItem>, hostname: string, key: PublicKey) returns (err: Option<HostKeyError>)
    ensures err == Verdict(items, hostname, key)
  {
    var i := 0;
    while i < |items|
      invariant 0 <= i <= |items|
      invariant Verdict(items, hostname, key) == Verdict(items[i..], hostname, key)
    {
      assert items[i..][1..] == items[i + 1..];
      match items[i]
      case BadLine(reason) =>
        return Some(ParseError(reason));
      case Entry(hosts, entryKey) =>
        if hostname in hosts && key.keyType == entryKey.keyType && key.wire == entryKey.wire {
          return None;
        }
      i := i + 1;
    }
    return Some(NoMatch(hostname));
  }

  /** What the callback made by `knownHostsHostKey(path, defaultPort)` answers. */
  function CallbackVerdict(cb: Callback, fs: map<string, KnownHostsFile>, hostname: string, key: PublicKey): Option<HostKeyError>
  {
    var hostname := StripPort(hostname, cb.defaultPort);
    if cb.path !in fs then Some(NotExist(cb.path))
    else match fs[cb.path]
      case Unreadable(reason) => Some(OpenFailed(reason))
      case Listing(items) => Verdict(items, hostname, key)
  }

  /** The callback of `knownHostsHostKey`: strip the default port, open the file, match. */
  method KnownHostsHostKey(cb: Callback, fs: map<string, KnownHostsFile>, hostname: string, key: PublicKey)
    returns (err: Option<HostKeyError>)
    ensures err == CallbackVerdict(cb, fs, hostname, key)
  {
    var name := hostname;
    if HasSuffix(name, ":" + cb.defaultPort) {
      name := name[..|name| - (1 + |cb.defaultPort|)];
    }
    if cb.path !in fs {
      return Some(NotExist(cb.path));
    }
    match fs[cb.path]
    case Unreadable(reason) =>
      return Some(OpenFailed(reason));
    case Listing(items) =>
      err := MatchKnownHosts(items, name, key);
  }

  /** The answers of the callbacks, one per callback. */
  function Verdicts(cbs: seq<Callback>, fs: map<string, KnownHostsFile>, hostname: string, key: PublicKey): (r: seq<Option<HostKeyError>>)
    ensures |r| == |cbs|
  {
    seq(|cbs|, i requires 0 <= i < |cbs| => CallbackVerdict(cbs[i], fs, hostname, key))
  }

  /**
   * The fold of `combinedHostKey` over the answers, with `result` the error
   * so far: the first acceptance wins, a missing file is skipped, and any
   * other error replaces the one kept.
   */
  function Combine(verdicts: seq<Option<HostKeyError>>, result: HostKeyError): (r: Option<HostKeyError>)
    decreases |verdicts|
  {
    if verdicts == [] then Some(result)
    else if verdicts[0] == None then None
    else if verdicts[0].value.NotExist? then Combine(verdicts[1..], result)
    else Combine(verdicts[1..], verdicts[0].value)
  }

  /** The combined callback accepts exactly when one of the callbacks does. */
  lemma {:induction false} CombineAccepts(verdicts: seq<Option<HostKeyError>>, result: HostKeyError)
    ensures Combine(verdicts, result) == None <==> exists i :: 0 <= i < |verdicts| && verdicts[i] == None
    decreases |verdicts|
  {
    if verdicts != [] && verdicts[0] != None {
      CombineAccepts(verdicts[1..], if verdicts[0].value.NotExist? then result else verdicts[0].value);
      assert forall i :: 1 <= i < |verdicts| ==> verdicts[i] == verdicts[1..][i - 1];
    }
  }

  /** A missing file is skipped: when every callback reports one, the error kept is the initial one. */
  lemma {:induction false} CombineAllMissing(verdicts: seq<Option<HostKeyError>>, result: HostKeyError)
    requires forall i :: 0 <= i < |verdicts| ==> verdicts[i].Some? && verdicts[i].value.NotExist?
    ensures Combine(verdicts, result) == Some(result)
    decreases |verdicts|
  {
    if verdicts != [] {
      assert forall i :: 0 <= i < |verdicts[1..]| ==> verdicts[1..][i] == verdicts[i + 1];
      CombineAllMissing(verdicts[1..], result);
    }
  }

  /**
   * When no callback accepts, the error returned is that of the last
   * callback whose error is not a missing file.
   */
  lemma {:induction false} CombineLastError(verdicts: seq<Option<HostKeyError>>, result: HostKeyError, j: nat)
    requires forall i :: 0 <= i < |verdicts| ==> verdicts[i].Some?
    requires j < |verdicts| && !verdicts[j].value.NotExist?
    requires forall i :: j < i < |verdicts| ==> verdicts[i].value.NotExist?
    ensures Combine(verdicts, result) == verdicts[j]
    decreases j
  {
    var rest := verdicts[1..];
    var next := if verdicts[0].value.NotExist? then result else verdicts[0].value;
    assert forall i :: 0 <= i < |rest| ==> rest[i] == verdicts[i + 1];
    if j == 0 {
      CombineAllMissing(rest, next);
    } else {
      CombineLastError(rest, next, j - 1);
    }
  }

  /** `Combine` over a prefix, then over the rest. */
  lemma CombineStep(verdicts: seq<Option<HostKeyError>>, result: HostKeyError, i: nat)
    requires i < |verdicts| && verdicts[i] != None
    ensures Combine(verdicts[i..], result)
      == Combine(verdicts[i + 1..], if verdicts[i].value.NotExist? then result else verdicts[i].value)
  {
    assert verdicts[i..][1..] == verdicts[i + 1..];
  }

  /**
   * `combinedHostKey`: runs the callbacks in order and stops at the first
   * that accepts. `ran` is the number of callbacks it ran.
   */
  method CombinedHostKey(cbs: seq<Callback>, fs: map<string, KnownHostsFile>, hostname: string, key: PublicKey)
    returns (err: Option<HostKeyError>, ran: nat)
    ensures err == Combine(Verdicts(cbs, fs, hostname, key), NotChecked)
    ensures err == None ==>
      (0 < ran <= |cbs| && Verdicts(cbs, fs, hostname, key)[ran - 1] == None
       && forall i :: 0 <= i < ran - 1 ==> Verdicts(cbs, fs, hostname, key)[i] != None)
    ensures err != None ==> ran == |cbs|
  {
    ghost var vs := Verdicts(cbs, fs, hostname, key);
    var result := NotChecked;
    var i := 0;
    while i < |cbs|
      invariant 0 <= i <= |cbs|
      invariant Combine(vs, NotChecked) == Combine(vs[i..], result)
      invariant forall j :: 0 <= j < i ==> vs[j] != None
    {
      var e := KnownHostsHostKey(cbs[i], fs, hostname, key);
      if e == None {
        assert vs[i..][0] == None;
        return None, i + 1;
      }
      CombineStep(vs, result, i);
      if !e.value.NotExist? {
        result := e.value;
      }
      i := i + 1;
    }
    return Some(result), i;
  }

  /** The host-key callbacks `dialSsh` combines: the user file first, then the global one, each only when set. */
  method HostKeyCallbacks(cfg: Config) returns (cbs: seq<Callback>)
    ensures |cbs| == (if cfg.userKnownHosts != "" then 1 else 0) + (if cfg.globalKnownHosts != "" then 1 else 0)
    ensures cfg.userKnownHosts != "" ==> 0 < |cbs| && cbs[0] == KnownHosts(cfg.userKnownHosts, "22")
    ensures cfg.globalKnownHosts != "" ==> 0 < |cbs| && cbs[|cbs| - 1] == KnownHosts(cfg.globalKnownHosts, "22")
  {
    cbs := [];
    if cfg.userKnownHosts != "" {
      cbs := cbs + [KnownHosts(cfg.userKnownHosts, "22")];
    }
    if cfg.globalKnownHosts != "" {
      cbs := cbs + [KnownHosts(cfg.globalKnownHosts, "22")];
    }
  }

  /** The address `dialSsh` dials, which `ssh.Dial` also hands to the host-key callback. */
  function DialAddress(cfg: Config): (r: string)
    ensures HasSuffix(r, ":" + cfg.port)
  {
    cfg.hostname + ":" + cfg.port
  }

  /** On the default port the callbacks look the configured host name up, without the port. */
  lemma DialedHostName(cfg: Config)
    requires cfg.port == "22"
    ensures StripPort(DialAddress(cfg), "22") == cfg.hostname
  {
    StripPortOfAddress(cfg.hostname, cfg.port);
  }
}
