# myssh — a model of the client core

`myssh` is a small SSH client written in Go. It logs in with keys held by an
SSH agent and checks host keys against known_hosts files. It can forward
X11 and the agent, and it runs an interactive shell in a raw-mode
terminal, including the Windows console. This project models that core in
Dafny and proves properties of the model. It covers:

- the X authority file reader (`x11/xau.go`): records of a 16-bit family
  and four length-prefixed fields, read one at a time by an iterator;
- X11 forwarding (`x11/x11.go`):
  - `DISPLAY` parsing and the address of the display;
  - the choice of the real cookie from the output of `xauth extract`;
  - the `x11-req` request, which announces a random pseudo cookie;
  - the connection-setup exchange, which checks that an X client presents
    the pseudo cookie and passes its prefix to the display with the real
    cookie in its place;
- the Windows console input reader (`tty/sys/windows/reader.go`): it turns
  console input records into UTF-16 code units in the caller's buffer, and
  it keeps the records that do not fit for the next call;
- the Windows terminal (`tty/tty_windows.go`):
  - the UTF-16 to UTF-8 transformer, which carries a pending surrogate
    from one call to the next;
  - the raw console modes, with the rollback in `makeRaw` and the
    restoring in `termRestore`;
  - the console reader's copy in that file, which has a different guard;
- configuration and host keys (`config.go`): `loadConfig`'s
  user-then-system-then-default lookup, the known_hosts callback, the
  combination of several callbacks and the callbacks `dialSsh` builds;
- the command (`main.go`): flags merged into the configuration, and
  `proc`, which asks for X11 and agent forwarding only when they are on and
  goes on whatever those requests answer.

Modules, one per file: `Base`, `Stream` (a consuming reader with
`io.ReadFull` semantics), `Xau`, `Display`, `CookieExchange`, `Forwarding`,
`ConsoleReader`, `TtyReader`, `Transcode`, `ConsoleMode`, `ClientConfig`
and `Cli`.

State that the source updates in place is modelled as classes:
- the reader (`Stream.Reader`);
- the console input reader (`ConsoleReader.InputRecordReader`);
- the transformer (`Transcode.W16ToUtf8Transformer`);
- the console (`ConsoleMode.Console`).

Each loop is a method with invariants, proved against a function of its
inputs. The properties proved about those functions:
- round trips: a record decodes back to itself, a surrogate pair to its
  character, a hex cookie to its bytes and a display to its name;
- transcoding the UTF-16 form of any text gives its UTF-8 form;
- nothing is lost or repeated across calls, in both the console reader
  and the transformer, as long as the caller passes back what a call left
  unconsumed; with three bytes of room per code unit the transformer
  leaves nothing;
- the host key check accepts if and only if a callback accepts;
- the two forwarding requests are made only when they are switched on.

## Model

| member | source | states |
|---|---|---|
| Base.Truncate16 | x11/x11.go:139 | `uint16(n)` keeps a length below 65536 unchanged |
| Base.EncodeU16 | x11/x11.go:139 | two bytes, which decode in the same byte order back to the value |
| Base.EncodeDecodeU16 | x11/x11.go:109-115 | any two bytes are the encoding of the value they decode to |
| Base.Zeros | x11/x11.go:143-147 | exactly `n` bytes, all zero |
| Stream.EndError | x11/xau.go:35-37 | data that runs out gives the stream's own error, or else `Eof` when nothing was read and `UnexpectedEof` when some was |
| Stream.ReadFullFrom | x11/x11.go:93-95 | `io.ReadFull` of `n` bytes succeeds if and only if `n` bytes remain; it gives exactly `n` bytes and leaves the rest; a failure is the end-of-stream error |
| Stream.ReadFullSplit | x11/xau.go:35-38 | the bytes read followed by the bytes left are the original data |
| Stream.ReadFullPrefix | x11/xau.go:35-38 | reading `|a|` bytes from `a + b` gives `a` and leaves `b` |
| Stream.Reader.constructor | x11/xau.go:72-74 | a reader over the given data with the given kind of end |
| Stream.Reader.ReadFull | x11/x11.go:93-95 | the result and the bytes left are those of `ReadFullFrom`; a failure consumes everything |
| Xau.EncodeField | x11/xau.go:29-39 | a field takes its 2-byte length plus its bytes |
| Xau.EncodeEntry | x11/xau.go:21-70 | a record takes 10 bytes plus its four fields |
| Xau.EncodingThen | x11/xau.go:41-67 | a record's encoding is the family and then the four fields, in the order they are read |
| Xau.WrapErr | x11/xau.go:22-27 | never gives `Eof`, and keeps every other error |
| Xau.ReadDataFrom | x11/xau.go:29-39 | a field is shorter than 65536 bytes and consumes 2 plus its length; a failure is the end error of a read that may or may not have read something |
| Xau.ReadDataEncodes | x11/xau.go:29-39 | a field that was read is the encoding of its bytes, followed by what is left |
| Xau.DecodeEntry | x11/xau.go:21-70 | a record consumes at least one byte; a failure is `Eof` only when the data is exhausted before the family |
| Xau.DecodedBytes | x11/xau.go:21-70 | the bytes a record consumed are its encoding |
| Xau.ReadDataOfField | x11/xau.go:29-39 | an encoded field is read back whatever follows |
| Xau.DecodeEncodedEntry | x11/xau.go:21-70 | round trip: any encodable record decodes to itself and leaves what follows |
| Xau.EncodingPrefixFree | x11/xau.go:21-70 | a record's encoding that begins another record's encoding is that record |
| Xau.YieldsShape | x11/xau.go:78-85 | a plain end of data is never reported to the consumer as an error |
| Xau.YieldsOfRecords | x11/xau.go:72-92 | the encodings of records back to back give those records in order, then what the rest gives |
| Xau.YieldsOfEncoding | x11/xau.go:76-81 | a well-formed file gives its records and then stops with no error |
| Xau.YieldsOfBrokenStream | x11/xau.go:82-84 | a read error after the records is reported once, as the last thing |
| Xau.TruncatedRecord | x11/xau.go:45-66 | a record cut short anywhere gives `UnexpectedEof` |
| Xau.YieldsOfTruncatedStream | x11/xau.go:72-92 | complete records and then a partial one give the records and then `UnexpectedEof` |
| Xau.ConsumedIsPrefix | x11/xau.go:87-89 | a consumer that stops early receives a prefix of the yields |
| Xau.ConsumedAll | x11/xau.go:87-89 | a consumer that never stops receives every yield |
| Xau.ReadData | x11/xau.go:29-39 | `readData` over the reader gives the field and leaves the bytes that `ReadDataFrom` gives |
| Xau.ReadXauthorityEntry | x11/xau.go:21-70 | `readXauthorityEntry` over the reader agrees with `DecodeEntry`, for the record and for the error |
| Xau.YieldNext | x11/xau.go:76-89 | one turn of the iterator's loop: the yields it gives are the next part of what the consumer receives, and the reader advances |
| Xau.ParseXauthority | x11/xau.go:72-92 | the consumer receives exactly the records, stops and error of the whole stream |
| Xau.FixtureDecodes | x11/xau_test.go:64-76 | the encoding of the three records the test expects (`localhost/unix:1`, `192.0.2.1:2`, `[2001:db8::1]:1`) decodes to exactly those records, in order, with no error |
| Display.ParseDisplay | x11/x11.go:26-54 | a parsed display is well formed and renders back to the name; a refused name gives `Failed to parse DISPLAY: <name>` |
| Display.ParseRender | x11/x11.go:29-53 | every well-formed `[host]:number[.screen]` is parsed back to its parts |
| Display.RejectedNames | x11/x11.go:30-33 | a name with no `:`, or with a line break in the host, is refused |
| Display.DecimalString | x11/x11.go:70 | `%d` of a number gives decimal digits of that value, with no leading zero |
| Display.WrapInt | x11/x11.go:70 | Go's 64-bit `int` arithmetic: a value in range is kept, and one past the largest `int` wraps to 2^64 below it |
| Display.IntString | x11/x11.go:70 | `%d` of an `int`: the decimal digits of a non-negative value, or a minus sign and the digits of its magnitude |
| Display.OpenDisplayTarget | x11/x11.go:56-71 | fails exactly when parsing fails, with the same error; a unix socket when the host is empty; with a host, a panic exactly when the number does not fit an `int`, otherwise TCP |
| Display.TargetParts | x11/x11.go:62-71 | the socket path ends in the display number; the TCP address splits at its last `:` into the host and the port 6000 + number, which past the largest `int` is the negative number 2^64 below it; a panic only for a number above the largest `int` |
| Display.SplitAtColon | x11/x11.go:70 | `host:port` with no `:` in the port splits back at its last `:` |
| CookieExchange.Pad | x11/x11.go:86-89 | the padding is below 4 and brings the length to a multiple of 4; it is zero for an aligned length |
| CookieExchange.Padded | x11/x11.go:117 | a padded length is the smallest multiple of 4 not below the length |
| CookieExchange.MagicCookieNameIsAscii | x11/x11.go:124 | the name accepted is `MIT-MAGIC-COOKIE-1` in ASCII |
| CookieExchange.ByteOrderOf | x11/x11.go:97-105 | 0x42 is big-endian and 0x6c little-endian; every other byte is refused |
| CookieExchange.OrderByte | x11/x11.go:98-102 | the byte a client sends for an order is read back as that order |
| CookieExchange.RewrittenAligned | x11/x11.go:132-161 | the rewritten prefix is a multiple of 4 bytes long, whatever the real cookie's length |
| CookieExchange.CheckPrefix | x11/x11.go:121-130 | accepts if and only if the name is `MIT-MAGIC-COOKIE-1` and the data is the pseudo cookie; the name is checked first; the result is aligned |
| CookieExchange.ReadPrefixFrom | x11/x11.go:92-122 | a short header is a read failure; an unknown first byte is a byte-order error; a prefix read consumes the header and exactly the padded name and data it announces |
| CookieExchange.ForwardAuthFrom | x11/x11.go:85-164 | a rewritten prefix comes only from a prefix that was read whole, and is aligned |
| CookieExchange.WriteRewritten | x11/x11.go:132-163 | the successive writes build exactly the rewritten prefix |
| CookieExchange.ReadPrefix | x11/x11.go:92-120 | the reads over the channel agree with `ReadPrefixFrom` |
| CookieExchange.ForwardX11Auth | x11/x11.go:85-164 | `forwardX11Auth` over the channel agrees with `ForwardAuthFrom` |
| CookieExchange.HeaderFields | x11/x11.go:108-115 | a client's header reads back with its byte order, name length and data length |
| CookieExchange.HeaderStart | x11/x11.go:135 | headers that differ only in the data length agree on bytes 0-7 |
| CookieExchange.BodyFields | x11/x11.go:121-122 | the name and the data are cut back out of the padded body |
| CookieExchange.ReadClientPrefix | x11/x11.go:92-122 | a client's whole prefix is read, and nothing after it |
| CookieExchange.CheckClientPrefix | x11/x11.go:124-163 | the checks on a client's prefix, and the prefix with the real cookie that comes out when they pass |
| CookieExchange.RewrittenClientPrefix | x11/x11.go:132-163 | the rewrite of a client's prefix is the prefix that client would send with the real cookie as its data |
| CookieExchange.ExchangeOfClientPrefix | x11/x11.go:85-164 | any name but `MIT-MAGIC-COOKIE-1` is refused, and so is any data but the pseudo cookie; otherwise the same prefix goes on with the real cookie in its place, and what follows stays unread |
| Forwarding.QueryCookie | x11/x11.go:231-244 | the loop over the iterator agrees with `QueryCookieFrom` on the output of `xauth` |
| Forwarding.SelectOfRecords | x11/x11.go:231-244 | the last record's data wins; an error aborts; no record at all is "not found" |
| Forwarding.CookieOfListing | x11/x11.go:237-244 | a well-formed listing gives its last record's cookie; an empty one gives "Cookie not found." |
| Forwarding.CookieOfTruncatedListing | x11/x11.go:232-235 | a listing cut short inside a record gives `UnexpectedEof` |
| Forwarding.CookieOfBrokenListing | x11/x11.go:232-235 | a read error aborts the query with that error |
| Forwarding.HexDigit | x11/x11.go:275 | a lowercase hex digit whose value is `v` |
| Forwarding.HexEncode | x11/x11.go:275 | `hex.EncodeToString` writes two characters per byte |
| Forwarding.HexRoundTrip | x11/x11.go:275 | the announced cookie decodes back to the pseudo cookie |
| Forwarding.ForwardX11 | x11/x11.go:257-285 | no display means nothing to do; a failed query, a failed request or a refusal is an error; success holds the real cookie and the announced pseudo cookie |
| Forwarding.RequestAnnouncesPseudoCookie | x11/x11.go:272-277 | `x11-req` is not single-connection, announces `MIT-MAGIC-COOKIE-1` for screen 0, and carries a cookie that decodes to the pseudo cookie |
| Forwarding.AnnouncedCookieIsExchanged | x11/x11.go:262-297 | end to end: a client that presents the announced cookie has its prefix passed on with the last `xauth` record's cookie |
| ConsoleReader.FilterAppend | tty/sys/windows/reader.go:66-95 | the units and notifications of records split in two are those of the parts |
| ConsoleReader.TypedText | tty/sys/windows/reader_test.go:35-82 | pressing and releasing a, b and c types `abc` |
| ConsoleReader.ShiftTypesNothing | tty/sys/windows/reader_test.go:83-120 | shift presses and releases type nothing |
| ConsoleReader.Scan | tty/sys/windows/reader.go:64-95 | one pass writes at most `room` units and uses at most all the records |
| ConsoleReader.ScanConsumed | tty/sys/windows/reader.go:66-95 | a pass writes exactly the units of the records it uses, and sends exactly their notifications |
| ConsoleReader.ScanStops | tty/sys/windows/reader.go:78-81 | a pass stops early only at a record that produces a unit when the room is used up |
| ConsoleReader.ScanKeepsRest | tty/sys/windows/reader.go:97-102 | nothing is lost: the units written are followed by those of the records kept |
| ConsoleReader.ScanAll | tty/sys/windows/reader.go:66-95 | with room for all the units, every record is used |
| ConsoleReader.PutUint16 | tty/sys/windows/reader.go:83 | the unit's two little-endian bytes are at `n`, and the rest of the buffer is unchanged |
| ConsoleReader.InputRecordReader.constructor | tty/sys/windows/reader.go:37-43 | no records kept, no notifications sent |
| ConsoleReader.InputRecordReader.Read | tty/sys/windows/reader.go:45-105 | a console error, when no records are kept, changes nothing; otherwise the units of `Scan` are at the start of `b`, their byte count is returned, the rest is kept and the notifications are counted |
| ConsoleReader.Step | tty/sys/windows/reader.go:66-95 | one round of the labelled loop keeps the loop's account against `Scan`, or stops exactly where `Scan` stops |
| ConsoleReader.Fill | tty/sys/windows/reader.go:64-95 | the loop writes the units of `Scan` and gives its byte count, records used and notifications |
| TtyReader.GuardedScan | tty/tty_windows.go:96-127 | the as-written loop writes out of range only in a buffer of two bytes or more, at an offset where two bytes do not fit |
| TtyReader.ShortBufferOutOfRange | tty/tty_windows.go:110-116 | two key presses into a 2-byte buffer: the second is written at offset 2; the reader of reader.go writes one and keeps the other |
| TtyReader.GuardedScanLong | tty/tty_windows.go:105-116 | with two bytes or more, the as-written loop goes out of range if and only if the units do not all fit; otherwise it uses every record |
| TtyReader.GuardedScanShort | tty/tty_windows.go:110-113 | with fewer than two bytes, the as-written loop is the pass of reader.go with no room |
| TtyReader.GuardedScanAgrees | tty/tty_windows.go:80-137 | the as-written `Read` is safe if and only if the buffer is shorter than two bytes or holds every unit; when safe it does what reader.go does |
| Transcode.RuneLen | tty/tty_windows.go:171 | `utf8.RuneLen` of a scalar value is 1 to 4 |
| Transcode.EncodeRune | tty/tty_windows.go:176 | `utf8.EncodeRune` writes `RuneLen` bytes |
| Transcode.DecodeEncodedRune | tty/tty_windows.go:176 | round trip: the encoding of a character decodes back to it, whatever follows |
| Transcode.DecodePair | tty/tty_windows.go:162-164 | `utf16.DecodeRune` gives a nonzero scalar value: the pair's character, or U+FFFD |
| Transcode.DecodeEncodedPair | tty/tty_windows.go:162-164 | round trip: a character's surrogate pair decodes back to it |
| Transcode.Units | tty/tty_windows.go:156-160 | one unit per whole two bytes of the source; an odd last byte is not read |
| Transcode.Combine | tty/tty_windows.go:160-164 | the result is a surrogate only when nothing was pending, and it is at most U+10FFFF |
| Transcode.Convert | tty/tty_windows.go:153-180 | one call writes no more than the room, consumes no more than the units, and leaves nothing or a surrogate pending |
| Transcode.ConvertAll | tty/tty_windows.go:156-178 | with unlimited room every unit is consumed |
| Transcode.ConvertResumes | tty/tty_windows.go:171-180 | for a caller that passes the unconsumed units back: one call's output, then what those units give from the unit it left pending, is the whole stream's output |
| Transcode.ConvertFits | tty/tty_windows.go:171-180 | with three bytes of room per unit, and one more for a pending unit, a call consumes every unit and writes the whole stream's output |
| Transcode.ShortDestination | tty/tty_windows.go:171-174 | with too little room a call stops early: two U+3042 and three bytes of room consume one unit |
| Transcode.ConvertEncoded | tty/tty_windows.go:148-182 | the UTF-16 form of any text transcodes to its UTF-8 form, with nothing left pending |
| Transcode.FirstUnit | tty/tty_windows.go:162-177 | the first unit, case by case: a surrogate becomes pending, a character that fits is written, a broken pair gives U+FFFD, and a character that does not fit ends the call |
| Transcode.UnpairedHighSurrogate | tty/tty_windows.go:162-169 | a high surrogate and a unit that is not a low surrogate give U+FFFD for both |
| Transcode.PutRune | tty/tty_windows.go:176 | the character's UTF-8 bytes are written after those already there |
| Transcode.Step | tty/tty_windows.go:156-178 | one round of the loop keeps the loop's account against `Convert`, or stops exactly where `Convert` stops |
| Transcode.W16ToUtf8Transformer.constructor | tty/tty_windows.go:139-142 | a new transformer has nothing pending |
| Transcode.W16ToUtf8Transformer.Reset | tty/tty_windows.go:144-146 | forgets the pending unit |
| Transcode.W16ToUtf8Transformer.Transform | tty/tty_windows.go:148-182 | an empty source at the end is `io.EOF` and changes nothing; otherwise the bytes written, the bytes consumed and the unit left pending are those of `Convert` |
| Transcode.TransformLoop | tty/tty_windows.go:153-181 | the loop gives `Convert`'s output in `dst`, twice its consumed units as bytes, and its pending unit |
| ConsoleMode.RawInputMode | tty/tty_windows.go:37-38 | line input, echo, processed input and mouse input are cleared; window and VT input are set; every other bit is kept |
| ConsoleMode.RawOutputMode | tty/tty_windows.go:50 | VT processing and no automatic carriage return are set; every other bit is kept |
| ConsoleMode.RawModesIdempotent | tty/tty_windows.go:37-50 | switching to raw mode twice is switching once |
| ConsoleMode.Console.GetConsoleMode | tty/tty_windows.go:33 | the call is logged; it gives the mode, or an error on a failing call or an unknown handle |
| ConsoleMode.Console.SetConsoleMode | tty/tty_windows.go:40 | the call is logged; it sets the mode, or fails and changes nothing |
| ConsoleMode.MakeRaw | tty/tty_windows.go:26-58 | the calls, their order, the modes and the error for each call that can fail: an output-side failure tries to put the input mode back, and the saved modes are returned only when all four calls succeed |
| ConsoleMode.TermRestore | tty/tty_windows.go:60-72 | both modes are set back whatever happens to the first; the input side's error is reported first |
| ConsoleMode.RawSession | tty/tty_windows.go:190-222 | with no failing call, opening and closing the terminal leaves both modes as they were |
| ClientConfig.Join | config.go:23 | the path starts with the directory and ends with the last element, with two separators |
| ClientConfig.LoadSshConfig | config.go:47-60 | a file that cannot be loaded gives no configuration |
| ClientConfig.Get | config.go:88-102 | the user file's value if set, else the system file's if set, else the fallback; a nonempty fallback never gives "" |
| ClientConfig.FailedLoadIsAbsent | config.go:85-86 | a file that failed to load reads like one that sets nothing |
| ClientConfig.LoadConfig | config.go:75-116 | fails if and only if there is no current user; the display comes from `DISPLAY` |
| ClientConfig.LoadConfigDefaults | config.go:104-112 | with nothing set, the fields take the documented defaults: port 22, no forwarding, `xauth`, the current user, the host, the default known_hosts paths |
| ClientConfig.ForwardingIffYes | config.go:110-111 | forwarding is on if and only if the first file that sets the option sets it to exactly `yes` |
| ClientConfig.StripPort | config.go:155-157 | removes a trailing `:<defaultPort>`, and changes any other name in no way |
| ClientConfig.StripPortOfAddress | config.go:155-157 | `host:port` with the default port becomes `host` |
| ClientConfig.Verdict | config.go:165-183 | the matching loop answers nothing, a parse error or `NO MATCH ENTRIES FOUND: <host>` |
| ClientConfig.VerdictAccepts | config.go:170-180 | the key is accepted if and only if an entry lists the host with the same key type and bytes, before any unparsable line |
| ClientConfig.VerdictNoMatch | config.go:183 | the no-match error comes if and only if there is neither an accepting entry nor an unparsable line |
| ClientConfig.VerdictFirstError | config.go:165-168 | the first unparsable line before any acceptance aborts the check with its error |
| ClientConfig.MatchKnownHosts | config.go:165-183 | the loop agrees with `Verdict` |
| ClientConfig.KnownHostsHostKey | config.go:153-185 | the callback strips the default port, fails when the file cannot be opened, and otherwise agrees with `Verdict` |
| ClientConfig.Verdicts | config.go:190-191 | one answer per callback |
| ClientConfig.CombineAccepts | config.go:190-194 | the combined callback accepts if and only if one of the callbacks accepts |
| ClientConfig.CombineAllMissing | config.go:189-197 | when every file is missing, the answer is the initial "Not checked." |
| ClientConfig.CombineLastError | config.go:195-200 | when nothing accepts, the answer is the last error that is not a missing file |
| ClientConfig.CombinedHostKey | config.go:187-202 | the loop agrees with `Combine`; it stops just after the first callback that accepts, and otherwise runs them all |
| ClientConfig.HostKeyCallbacks | config.go:205-214 | one callback per configured file, the user file first and the global file last, each with default port 22 |
| ClientConfig.DialAddress | config.go:223 | the address ends in `:<port>` |
| ClientConfig.DialedHostName | config.go:204-223 | on port 22 the callbacks look up the configured host name without the port |
| Cli.ApplyFlags | main.go:107-116 | `-display` replaces the display and turns X11 forwarding on; `-X` and `-A` turn their forwarding on; nothing else changes; no flags change nothing |
| Cli.FirstFailing | main.go:13-83 | the stage found is in the run and fails; none is found if and only if no stage fails |
| Cli.FirstFailingAt | main.go:13-83 | a failing stage with none failing before it is the one found (so the one found is the first), and the stages that run end with it |
| Cli.NoneFailing | main.go:13-83 | when no stage fails, every stage runs |
| Cli.FirstFailingAppend | main.go:13-83 | the first failure of two runs in a row is that of the first run, or else that of the second |
| Cli.UpToPrefix | main.go:13-83 | the stages that run are a prefix of the run, ending with the first that fails, or all of them when none fails |
| Cli.UpToStages | main.go:13-83 | only stages of the run are run |
| Cli.Connect | main.go:16-26 | dialing and then opening the session run up to the first that fails, which is the error; it fails if and only if one of the two fails |
| Cli.RequestForwarding | main.go:28-33 | X11 and then agent forwarding is requested, each only when it is on; their answers are discarded |
| Cli.RunTerminal | main.go:38-82 | the terminal steps run in order, cut off after the first that fails, which is the error and the last to run; with no failure all five run |
| Cli.SessionStages | main.go:38-82 | the terminal steps never request forwarding, and when none fails the last is `Wait` |
| Cli.Proc | main.go:13-83 | the stages run are dialing and the session up to the first failure, then the forwarding that is on and the terminal steps up to the first failure; the error is the first failing required step, never a forwarding request; X11 (agent) forwarding is requested if and only if it is on and the session opened; the run starts with dialing, and a success ends with `Wait` |
| Cli.ProcTraceStages | main.go:13-83 | the run of `proc` requests X11 (agent) forwarding if and only if it is on and the session opened, starts with dialing, and ends with `Wait` when nothing fails |
| Cli.RunCommand | main.go:85-121 | no host is fatal; a failed load is fatal; otherwise `proc` runs with the loaded configuration merged with the flags, and the exit is its first failing step or success |

## Left out

- Process, network and channel I/O are not modelled: running `xauth`, `net.Dial`, `ssh.Dial`, `SendRequest`, `ssh.Marshal`, `HandleChannelOpen` and the channel copies. Their results are parameters: the bytes `xauth` writes, the server's answer to `x11-req`, and which steps of `proc` fail.
- `forwardX11Connection`, `closeConnWrite` and the goroutines are not modelled; they are concurrency and socket plumbing. The model keeps the prefix rewrite that `forwardX11Connection` starts with.
- `genPseudoCookie` is left out because it reads the system's random source. The pseudo cookie is a parameter of `Forwarding.ForwardX11`.
- The regular expression engine is not modelled. `Display.ParseDisplay` states the grammar directly; `Display.ParseRender` and `Display.RejectedNames` show that it agrees with it.
- `net.Dial` is not modelled, so nothing says what dialing a negative TCP port does; `Display.OpenDisplayTarget` gives the address the source builds.
- Xau.ParseXauthority: does not state where the underlying reader stops. The source wraps it in a `bufio.Reader`, which may read ahead.
- The known_hosts and ssh_config parsers are inputs, not models: an already parsed list of entries and lines, and a map from option name to value. The same goes for `user.Current`, the environment variables and which files exist.
- The buffering in `iterKnownHosts` is not modelled; only the entries it yields are.
- ClientConfig.Join: does not clean the path as `filepath.Join` does.
- The `*config` pointer is modelled as a value. `main` mutates it before `proc` runs and nothing else shares it, so no aliasing is lost.
- `agent/`, `tty/tty.go`, `tty/tty_unix.go` and the system-call wrappers are not part of this model.
- The `sigwinch` channel is modelled only as a count of notifications sent. The size of the terminal and `WindowChange` are not modelled.
- The `Read` of `tty/tty_windows.go` is not modelled as a method that writes an array. Its loop is `TtyReader.GuardedScan`, and the method the model uses is the reader of `tty/sys/windows/reader.go`, which it was copied from (see Findings). That copy also returns every console error as it is; only reader.go maps `io.EOF`.
- `GetConsoleMode` and `SetConsoleMode` are abstract. Whether a call fails is given by its position in the log of calls.
- ConsoleMode.RawSession: requires distinct input and output handles. It states only the outcome when no call fails; `MakeRaw` and `TermRestore` state every case.
- Transcode.W16ToUtf8Transformer.Transform: takes the source as a sequence. Only the destination is an array.
- `transform.Reader` (golang.org/x/text), which drives the transformer in `openTty`, is not part of this model. `Transform` returns no error even when it stops short: at a character that does not fit in `dst` (`Transcode.ShortDestination`) and at an odd last byte. The `transform.Transformer` interface asks for `ErrShortDst` or `ErrShortSrc` in those cases, and `transform.Reader` reports a `nil` error with bytes left over as an inconsistent byte count. In this program neither happens: each read of the console gives at most 1024 units of two bytes, and `transform.Reader`'s destination buffer of 4096 bytes has room for three bytes per unit and one more (`Transcode.ConvertFits`).
- `ssh.Session` and `ssh.Client` are not modelled, so neither are the terminal modes and the `xterm-256color` pty request beyond whether they fail.

## Findings

| source | as written | input that shows it | evidently intended | confidence | as-written member | corrected member |
|---|---|---|---|---|---|---|
| tty/tty_windows.go:110-113 | the loop of `Read` stops only when the whole buffer is shorter than two bytes (`len(b) < 2`) | two key presses (`a`, `b`) read into a 2-byte buffer: the first fills it, the guard lets the second through, and `PutUint16(b[2:], …)` writes out of range | stop when fewer than two bytes remain after the `n` already written (`len(b[n:]) < 2`, as tty/sys/windows/reader.go:78 has), keeping the record for the next call | medium; not executed; latent in this program, where `transform.Reader` always passes a 4096-byte buffer and a read gives at most 2048 bytes | TtyReader.ShortBufferOutOfRange | ConsoleReader.InputRecordReader.Read |
