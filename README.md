# otsshd, modelled in Dafny

otsshd is a one-shot SSH server. It makes a fresh host key and prints the key as
a known-hosts line. It can also hand that line to an announce command. Then it
waits for one authenticated session. The session is bridged to a shell on a
pseudoterminal, and the child's output is copied both to a transcript log and to
the peer. After that one session, or after a timeout, the server closes.

The repository holds two versions of the program:

- `server.go` with `main.go` is the current version.
- `pty.go` is an earlier, self-contained variant. In it every start-up failure
  and every failure inside a session ends the process (a failing start panics).
  Three outcomes are not fatal: a failing announcement is only logged, the
  child's wait result is discarded, and a rejected key makes the handler
  return false. The child is always bash, and the timer cannot be cancelled.

The model keeps them apart, one module per version. They share only what is the
same code in both.

| module | file | what it holds |
|---|---|---|
| `Common` | common.dfy | bytes, `Option`/`Result`, Go error values with `%w` wrapping, `errors.As`/`errors.Is` |
| `Base64` | base64.dfy | the standard base64 of section 4 of RFC 4648, with a decoder and the round trip |
| `Keys` | keys.dfy | public keys, the authorization predicate, the known-hosts line and its parser |
| `Terminal` | terminal.dfy | the pseudoterminal and writer objects, and the child-to-peer forwarding loop of both versions |
| `Server` | server.dfy | the public-key handler, shell and environment, `setWinsize`, `handleSSHSession`, the one-shot gate and the `oneTimeServer` object |
| `Cli` | cli.dfy | `strings.Fields`, the announce argv, the authorized-keys line loop, `run`'s result and the exit status |
| `Legacy` | legacy.dfy | the earlier handler, session, shared `once`, key-file loop, `run` and `main` |

How the model represents the program:

- **Collaborators become inputs.** The reads from the pseudoterminal are a
  script of `ReadOutcome`s. Once the script is used up, a read reports the
  `*os.PathError` of a closed device. Each writer has a script of write
  results; writes beyond its script succeed. The child is a `Child` value: the
  results of `pty.Start` and of `cmd.Wait`. `gossh.ParseAuthorizedKey` is a
  total function param that returns a `Result`. The listener's and `Close`'s
  results are parameters of `run`.
- **The forwarding loop** is a method over these objects. It is proved equal to
  a closed-form transcript, `Forward`, which in turn is proved equal to a literal
  round-by-round definition, `Loop`.
- **The `sync.Once` gate** is a sequential state machine over an arbitrary
  sequence of events. In the current version everything the handler and the
  timer do happens inside `once.Do`, so each of them is one event. In the
  earlier version the timer prints its line outside `once`, and a session's
  body runs long enough for that line to come in the middle. So there a
  session's call and its handling's return are separate events, and so are
  the timer's line and its call. Any interleaving of the goroutines is one such
  sequence. The server objects' methods are proved to take exactly the
  machine's steps.

Three facts about how the current version ends, each stated as the code is written:

- **Exit status after a non-exit error.** `main` (main.go:46-56) exits with
  status 0 unless an `*exec.ExitError` is in the error's chain, so every other
  error that `run` returns also gives status 0. `Cli.ExitCode` states this.
- **The child's exit code.** `run` reads the recorded session error only when
  the listener returns nil (main.go:103-115). After the gate closes the
  server, the listener reports `ErrServerClosed`, and `run` returns nil
  whatever the session recorded. `Cli.SessionErrorReachesResult` and
  `Cli.SessionExitStatus` state both paths. The listener's result is an input,
  because what it returns after `Close` is library behaviour.
- **Closing fails.** When `Close` fails, `run` returns an error whose text is
  just "failed to " and which has lost its cause (main.go:111-113).
  `Cli.ServeResult` states it.

## Model

| member | source | states |
|---|---|---|
| `Common.AsExitErrorFindsRoot` | main.go:49-51 | `errors.As` for `*exec.ExitError` finds the error at the end of the `%w` chain exactly when that error is an exit error |
| `Common.IsServerClosedFindsRoot` | main.go:104 | `errors.Is(err, ErrServerClosed)` holds exactly when the chain ends in `ErrServerClosed` |
| `Common.Decimal` | main.go:166 | the `%v` of a line number is a non-empty string of decimal digits, without a leading zero |
| `Common.DecimalValue` | main.go:166 | those digits denote the line number: read back in base 10 they give `n` |
| `Common.AsciiBytes` | server.go:101 | `io.WriteString` sends the string's bytes: same length, byte `i` is the code of character `i` |
| `Base64.Encode` | main.go:127 | the encoding of `n` bytes has `4 * ceil(n / 3)` characters (RFC 4648 section 4 padding) |
| `Base64.DecodeEncode` | main.go:127 | decoding the standard base64 of any byte string gives it back |
| `Base64.EncodeCharacters` | main.go:127 | every character of an encoding is in the base64 alphabet, except `=` in the last two places |
| `Base64.EncodeHead` | main.go:127 | the first four characters of an encoding of three or more bytes do not depend on the bytes after the third |
| `Base64.EncodeSplit` | main.go:127 | encoding splits after any whole number of three-byte groups: `Encode(a + c) == Encode(a) + Encode(c)` |
| `Base64.PadBitsOne` | main.go:127 | with one byte left over, the final group is its high six bits, its low two bits shifted up by four, then `==`; the bits no byte fills are zero (RFC 4648 section 3.5) |
| `Base64.PadBitsTwo` | main.go:127 | with two bytes left over, the third symbol is the last byte's low four bits shifted up by two, then `=`; the bits no byte fills are zero |
| `Keys.FormatKnownHosts` | main.go:126-128 | the line starts with the key type and one space, and its length is the type's plus one plus the base64 length of the wire bytes |
| `Keys.KnownHostsRoundTrip` | main.go:126-128 | the known-hosts line is the key type, one space, then base64 of the wire bytes, so parsing it back gives the key |
| `Keys.Wires` | server.go:33-40 | the list of wire encodings has one entry per key |
| `Keys.SomeEntryEqual` | server.go:33-40 | some entry equals the key by `ssh.KeysEqual` iff the key's wire bytes are among the entries' |
| `Keys.IsAuthorized` | server.go:33-40 | a key is authorized iff its wire bytes are among the list's wire encodings |
| `Server.PublicKeyHandler` | server.go:33-40 | the handler accepts a key iff it equals (by wire encoding) some entry of the authorized list |
| `Server.Shell` | server.go:92-95 | the program is `$SHELL`, or `bash` when `$SHELL` is empty |
| `Server.ChildEnv` | server.go:105-109 | the child's environment is the parent's entries in order when `copyEnv`, otherwise none, then exactly one final `TERM=<term>` |
| `Server.Lookup` | server.go:105-109 | a variable is set in an environment iff some entry defines it; its value is the text after `name=` of an entry after which no entry defines it (the last one wins) |
| `Server.ChildSeesTerm` | server.go:109 | the child always sees TERM as the requested terminal type, even if the parent's environment sets TERM |
| `Server.ChildSeesParent` | server.go:105-109 | every other variable has the parent's value when the environment is copied, and is unset otherwise |
| `Server.TermEntryDefinesOnlyTerm` | server.go:109 | the appended entry sets no variable other than TERM |
| `Server.Uint16` | server.go:152 | `uint16(x)` is the value in `[0, 2^16)` congruent to `x` |
| `Server.SetWinsize` | server.go:150-153 | the window record has rows and columns within 16 bits and zero pixel sizes |
| `Server.WinsizeExact` | server.go:150-153 | a size that fits is passed as `(h, w, 0, 0)`: rows first |
| `Server.ApplyResizes` | server.go:115-119 | the resize goroutine makes one `setWinsize` record per reported window change, in order |
| `Server.WinsizeWraps` | server.go:150-153 | sizes that agree modulo 2^16 give the same record (truncation, not saturation) |
| `Server.SessionResult` | server.go:128-147 | device closed gives `cmd.Wait()`'s result; a read, log or session failure wraps its cause as "failed to read from command", "failed to write to log" or "failed to write to session" |
| `Server.Bridge` | server.go:91-148 | a command is started iff a PTY was requested; it is then `Shell` with `ChildEnv`; the peer's buffers are a prefix of the log's, and no more buffers are logged than reads are used, nor more reads used than scripted |
| `Server.HandleSSHSession` | server.go:91-148 | the handler's result, started command, log buffers, peer buffers and reads used are exactly those of `Bridge` |
| `Server.NoPtySession` | server.go:99-103 | without a PTY the peer gets exactly "No PTY requested.\n", the result is nil, no child is started and nothing is read or logged |
| `Server.PtySession` | server.go:92-147 | a PTY session starts `$SHELL` (or bash) seeing TERM; the peer's buffers are a prefix of the log's, each log buffer is the frame of a successful read, and a missing last peer buffer means the log write failed |
| `Server.StartFailure` | server.go:110-113 | a failing `pty.Start` gives "failed to start pty" around its cause, with nothing forwarded |
| `Server.ReadFailureOrWait` | server.go:128-147 | a non-`PathError` read error gives "failed to read from command" with no write in that round; a `PathError` gives the child's wait result |
| `Server.Step` | server.go:48-55 | after a step the body has run; once it has, a step changes nothing; the first step appends effects ending with `Close`; a timeout never changes `sessionErr` |
| `Server.Run` | server.go:48-55 | after a sequence of triggers the body has run iff it had already or some trigger came; effects are only appended |
| `Server.RunAfterDone` | server.go:49-54 | once the guarded body has run, no trigger changes the gate |
| `Server.FirstTriggerWins` | server.go:48-55 | the first trigger decides everything: a session bridges, records its result and then closes; a timeout warns and closes and leaves `sessionErr` nil |
| `Server.AtMostOnce` | server.go:48-55 | `server.Close` is called exactly once if any trigger came and never otherwise, and at most one session is bridged |
| `Server.LaterTriggersInert` | server.go:49 | triggers after the first can be dropped without changing anything |
| `Server.Admit` | server.go:33-40 | the authentication filter passes at most one trigger per attempt; `Server.AcceptedReachesGate` gives the accepting direction |
| `Server.AcceptedReachesGate` | server.go:33-55 | an accepted connection that is the first to get past the key check is bridged, records its result and closes the server, whatever rejected connections came before it and whatever comes after |
| `Server.AdmitAppend` | server.go:33-40 | filtering a concatenation of attempts filters each part |
| `Server.RejectionIsInert` | server.go:33-40 | a rejected connection, wherever it comes in the sequence, leaves the gate exactly as without it |
| `Server.NoKeysNoSession` | server.go:33-40 | with no authorized keys only the timeout reaches the gate: no session is bridged and `sessionErr` stays nil |
| `Server.OneTimeServer.constructor` | server.go:29-59 | a new server has not run its body and has no recorded error |
| `Server.OneTimeServer.Authenticate` | server.go:33-40 | the server's key callback accepts exactly the keys equal to one it was made with |
| `Server.OneTimeServer.Handle` | server.go:48-55 | the handler takes exactly the gate's `Step` for its session: after the body has run it changes nothing; otherwise it bridges and records the result, and the log, peer and pty change as `Bridge` says |
| `Server.OneTimeServer.Timeout` | server.go:67-77 | the timer takes exactly the gate's `Step` for a timeout |
| `Terminal.Pty.Read` | server.go:128 | a read returns the next scripted outcome; once the script is used up, a `PathError` |
| `Terminal.Sink.Write` | server.go:138-142 | a write records its buffer and returns the scripted result for its position |
| `Terminal.Frame` | server.go:127-128 | each round's buffer has exactly 1024 bytes: the bytes read, then zeros |
| `Terminal.At` | server.go:128 | the outcome of read `k` exists iff `k` is within the script |
| `Terminal.Rounds` | server.go:126-145 | the loop's successful rounds: every one of them read, logged and sent without error, and the next one did not |
| `Terminal.Ending` | server.go:128-144 | the ending round uses one read unless the device was already gone, logs at most one buffer, and sends a buffer only when it logged it |
| `Terminal.Forward` | server.go:125-145 | the closed form: the peer's buffers are a prefix of the log's, no more buffers are logged than reads are used, nor more reads used than scripted, and a closed device means both got the same buffers |
| `Terminal.Loop` | server.go:125-145 | the literal loop from round `from`: the peer's buffers are a prefix of the log's and it never reads past the script |
| `Terminal.LoopInClosedForm` | server.go:126-145 | from any round on, the literal loop equals the closed form: the successful rounds' frames, then the ending round |
| `Terminal.ForwardIsLoop` | server.go:126-145 | the closed-form transcript `Forward` equals the literal round-by-round loop on every input |
| `Terminal.RoundsExactly` | server.go:126-145 | if rounds before `k` succeed and round `k` does not, the loop makes exactly `k` successful rounds |
| `Terminal.ForwardEnds` | server.go:126-145 | that loop's transcript is the `k` frames followed by the ending round |
| `Terminal.FramesSnoc` | server.go:127-144 | one more successful round appends its frame |
| `Terminal.PeerPrefixOfLog` | server.go:138-144 | on every exit path the peer's buffers are a prefix of the log's, one shorter exactly when the log write failed |
| `Terminal.LogHoldsReadFrames` | server.go:127-138 | log buffer `i` is the full frame of read `i`, which succeeded |
| `Terminal.ExitCause` | server.go:128-145 | every round before the last succeeded; the loop ended because the device closed, the read failed (nothing written), the log write failed (peer not written), or the peer write failed |
| `Terminal.ForwardRound` | server.go:127-144 | one iteration reads, logs, then sends one frame; it stops exactly when the round does not succeed, and then ends as `Ending` says |
| `Terminal.ForwardOutput` | server.go:125-145 | the loop's exit, the log's and peer's new buffers and the reads it used are exactly `Forward`'s transcript |
| `Cli.TrimLeft` | main.go:131 | dropping leading white space leaves a suffix that is empty or starts with a non-space, and everything dropped is space |
| `Cli.Word` | main.go:131 | a field is the longest space-free prefix |
| `Cli.Fields` | main.go:131 | `strings.Fields` yields only non-empty, space-free fields |
| `Cli.FieldsOfSpaces` | main.go:131 | leading white space of any length and kind does not change the fields |
| `Cli.FieldsOfSpaced` | main.go:131 | words with white-space runs of any length around and between them (at least one character between two words) split back into exactly those words |
| `Cli.SpacedFields` | main.go:131 | every string is its fields with such white-space runs around and between them, so with `FieldsOfSpaced` the fields of any string are its maximal runs of non-space characters |
| `Cli.FieldsKeepText` | main.go:131 | the fields, concatenated, are exactly the command's non-space characters in order |
| `Cli.FieldsOfJoin` | main.go:131 | words joined by single spaces split back into those words |
| `Cli.AnnounceArgv` | main.go:131-133 | the announce argv is the command's fields followed by the known-hosts line as the last element |
| `Cli.AnnounceArgvOfWords` | main.go:131-133 | a command written as words separated by white-space runs of any length, with or without white space around it, runs with those words and then the key line |
| `Cli.PerformAnnouncement` | main.go:130-142 | the announcement runs that argv and returns the run's error unchanged |
| `Cli.AnnouncementStderr` | main.go:134-141 | captured standard error is returned only when the chain ends in an exit error, and is then that error's output |
| `Cli.FirstUnparsable` | main.go:158-167 | the first line the parser rejects, with all earlier lines accepted; none when every line parses |
| `Cli.ParsedKeys` | main.go:164-169 | one key per line, in input order |
| `Cli.LinesResult` | main.go:156-176 | an empty first line gives the no-keys notice; a success means no scan error and one parsed key per line, in order |
| `Cli.ParseAuthorizedKeysFile` | main.go:144-177 | a failing open of a named file gives "failed to open file"; otherwise the result is `LinesResult`: the no-keys notice for an empty first line, the first rejected line with its zero-based index, the scan error, or the keys |
| `Cli.FirstUnparsableIs` | main.go:158-167 | when lines before `i` parse and line `i` does not, the loop stops at `i` |
| `Cli.NoLinesNoKeys` | main.go:154-176 | input without lines gives an empty key list and no error |
| `Cli.LinesResultCases` | main.go:156-176 | success iff the first line is not empty, no scan error and every line parses; a success has one key per line in order; a failure is one of the three documented errors |
| `Cli.StartupError` | main.go:63-87 | start-up fails iff one of its five steps fails; the first failing step, in the order log file, keys, key generation, signer, public key, decides; its own error is the cause, wrapped with that step's message |
| `Cli.EmptyKeyInputStopsRun` | main.go:68-71 | a key input whose first line is empty stops `run` with the no-keys notice inside "failed to parse authorized keys file", and the exit status is then 0 |
| `Cli.RunResult` | main.go:59-87 | a start-up failure is `run`'s result, before anything is served |
| `Cli.SessionErrorReachesResult` | main.go:103-115 | after a clean start-up: the session error is the result when the listener returned nil and `Close` succeeded; a failing `Close` gives the bare message "failed to "; `ErrServerClosed` anywhere in the listener's chain gives nil; any other listener error is the result |
| `Cli.ServeResult` | main.go:103-115 | after serving: `ErrServerClosed` anywhere in the listener's chain gives nil; any other listener error is the result; after a nil listener a failing `Close` gives the bare "failed to ", and otherwise the session error is the result |
| `Cli.ExitCode` | main.go:46-56 | the exit status is the code of an exit error at the end of the chain, and 0 for nil or any other error |
| `Cli.SessionExitStatus` | main.go:46-115 | end to end: a winning session whose child exits with `c` gives status `c` when the listener returned nil and `Close` succeeded; a timeout on that path, or a listener reporting `ErrServerClosed` on any path, gives 0 |
| `Legacy.TryingLine` | pty.go:98 | the printed line is "client trying ", then the key's known-hosts line, then a newline |
| `Legacy.PublicKeyHandler` | pty.go:97-106 | the handler prints "client trying" with the key's known-hosts line, and accepts iff the key equals an authorized one |
| `Legacy.TryingLineNamesKey` | pty.go:98 | the printed line carries the known-hosts line of the presented key, which parses back to the key |
| `Legacy.BashCommand` | pty.go:201-204 | the child is always bash, with exactly one environment entry `TERM=<term>` |
| `Legacy.LoopEnd` | pty.go:223-239 | only a `PathError` ends the loop normally; every other exit is fatal with the very cause |
| `Legacy.Handle` | pty.go:200-246 | a command is started iff a PTY was requested; without one the session finishes; with one the peer's buffers are a prefix of the log's and no read past the script is made |
| `Legacy.HandleSession` | pty.go:200-246 | how the session ends, the command started and the log, peer and pty changes are exactly those of `Handle` |
| `Legacy.PtySessionRunsBash` | pty.go:201-240 | a PTY session runs bash seeing TERM; the peer's buffers are a prefix of the log's full frames; the session finishes iff the device closed |
| `Legacy.WaitResultDiscarded` | pty.go:242 | the child's wait result never changes how a session ends |
| `Legacy.NoPtySession` | pty.go:243-245 | without a PTY the peer gets exactly "No PTY requested.\n", no child is started and nothing is read |
| `Legacy.FailuresAreFatal` | pty.go:205-239 | a failing start panics; a read, log or peer failure is fatal with its cause, with the peer one buffer short exactly when the log write failed |
| `Legacy.Step` | pty.go:111-139 | a dead process reacts to nothing; effects are only appended, at most one per event; once a body has started, `once` never becomes fresh again; a body can only start from a fresh `once` |
| `Legacy.Run` | pty.go:111-139 | over any sequence of events the effects are only appended, and a dead process stays as it is |
| `Legacy.RunAppend` | pty.go:111-139 | running two sequences of events one after the other is running their concatenation |
| `Legacy.BeforeAnyCall` | pty.go:131-133 | before any call of `once.Do` nothing runs, and the only effects are the timer's lines |
| `Legacy.StepKeepsSessionWon` | pty.go:112-116 | once a session has won `once`, no event changes who won, makes a second handling, or adds a shutdown other than the one after its handling finished |
| `Legacy.StepKeepsTimerWon` | pty.go:134-136 | once the timer has won `once`, no event makes a handling or a second shutdown |
| `Legacy.RunKeepsSessionWon` | pty.go:111-139 | the same for any sequence of later events after a session has won |
| `Legacy.RunKeepsTimerWon` | pty.go:111-139 | the same for any sequence of later events after the timer has won |
| `Legacy.FirstCallWins` | pty.go:109-139 | the first call of `once.Do` decides, whatever comes around it, the timer's line included: a first session is the only one handled, and the server is shut down only after that handling finished (never if it killed the process); a first timer call shuts the server down, and no session is ever handled |
| `Legacy.FirstCall` | pty.go:109-139 | the position of the first call of `once.Do`, with every earlier event not a call |
| `Legacy.ShutDownAtMostOnce` | pty.go:109-139 | for every order of events the server is shut down exactly once if a body completed and never otherwise, and at most one session is handled |
| `Legacy.Halted` | pty.go:113-116 | how the process died is known exactly when handling killed it |
| `Legacy.SharedOnce.constructor` | pty.go:111 | a new `once` is fresh, with no effects |
| `Legacy.SharedOnce.Handler` | pty.go:112-117 | run to completion, the handler takes exactly the gate's steps for its session's call and then its handling's return, with the log, peer and pty changed as `Handle` says; once a body has started it changes nothing |
| `Legacy.SharedOnce.TimerFires` | pty.go:130-139 | the timer takes exactly the gate's steps for its line and then its call of `once.Do`: it always prints, and shuts down only if `once` is fresh |
| `Legacy.LinesResult` | pty.go:178-192 | success iff there is no scan error and every line parses, and then one key per line, in order |
| `Legacy.ParseAuthorizedKeysFile` | pty.go:170-193 | a failing open gives "failed to open file"; otherwise the first rejected line with its index, then the scan error, then the keys, with no empty-input check |
| `Legacy.AgreesWithCurrentVersion` | pty.go:178-192 | both versions read an input whose first line is not empty alike; here an empty first line goes to the parser |
| `Legacy.RunResult` | pty.go:57-128 | a start-up failure, wrapped exactly as in the current version, is `run`'s result; after a clean start-up, `ErrServerClosed` anywhere in the listener's chain gives nil, and any other listener error is the result |
| `Legacy.Later` | pty.go:141 | `errgroup.Wait` returns at the later of two goroutines' ends |
| `Legacy.TimerEnds` | pty.go:130-139 | the timer goroutine ends no earlier than the timeout, and no earlier than the end of a winning session's body its `once.Do` waits for |
| `Legacy.ListenerEnds` | pty.go:121-128 | the listener ends no later than the shutdown |
| `Legacy.RunWaitsForTimer` | pty.go:121-141 | `run` never returns before the timeout; it returns at the later of the timeout and the winning body's end, whatever the listener does |
| `Legacy.EarlySessionWaitsForTimeout` | pty.go:121-141 | a session whose body ends before the timeout still leaves `run` waiting out the full timeout, though its listener has already ended |
| `Legacy.MainExit` | pty.go:47-54 | an empty key path gives status 1; the status is 0 iff the path was given, no session killed the process, and `run` returned nil |
| `Legacy.LegacyExitStatus` | pty.go:52-54 | end to end, for a first session call whose handling has returned: a fatal one gives status 1, a panicking one 2; a finished session or a first timer call with `ErrServerClosed` from the listener gives 0, whatever the child did |

## Left out

- Console output that changes no state: log.go's coloured notices, the
  announcement's log lines, the printed known-hosts line, and the
  `fmt.Printf("%#v")` of a failed peer write in pty.go. These are terminal I/O.
  Three printed lines are kept, because their position relative to `once`
  matters: the current version's timeout warning (`Server.Effect.TimeoutWarned`),
  the earlier version's timer line (`Legacy.Effect.TimeoutLogged`), and its
  "client trying" line (`Legacy.PublicKeyHandler`).
- What the announcement's outcome changes: a failing announcement only logs
  two warnings (main.go:89-94), and `run` carries on. So `Cli.RunResult`
  takes no announcement outcome.
- Key generation and encoding (`ed25519.GenerateKey`, `edkey`, PEM,
  `gossh.ParsePrivateKey`, `gossh.NewPublicKey`). They are randomness and
  library calls. Their failures are inputs of `Cli.StartupError`, and a key's
  wire encoding is opaque bytes.
- `gossh.ParseAuthorizedKey` is an abstract parser parameter.
  `ssh.KeysEqual` is modelled as equality of wire encodings.
- The goroutines: the resize loop over `winCh` (`Server.ApplyResizes` runs it
  over the window changes as a sequence), `io.Copy` from the peer to the child,
  `errgroup`, and real time. Their concurrency is represented only by the order
  of events at the gate. `Legacy.ReturnTime` takes the instants as plain
  numbers. It covers only a winning body that finishes: a session that kills
  the process never lets `run` return.
- Process spawning, `pty.Start`, `cmd.Wait` and the `ioctl`. They are OS calls;
  their results are the `Child` input.
- `flag` parsing, `os.Exit`, `os.OpenFile`, and scanning stdin or a file. These
  are I/O plumbing: the key-file loop gets the scanned lines and the scanner's
  error as inputs.
- `bufio.Reader` buffering between the pty and the loop. The model sees only
  the outcome of each `Read` call in order.
- The exit status of a Go panic (2) and of `log.Fatal` (1) in
  `Legacy.MainExit` come from the Go runtime, not from this source.
- `Legacy.SharedOnce.Handler` runs a session's call and its handling's return
  back to back. Orders where the timer's line or call comes in between are
  covered by `Legacy.Run` over arbitrary event sequences, not by the object.
- The timer fires once, and each session calls `once.Do` once. The event
  sequences allow any number of each, so they cover more orders than the
  program produces.
- The unused `lasOnce` field of `oneTimeServer` has no behaviour and is not modelled.
