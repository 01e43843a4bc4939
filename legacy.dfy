/**
  The earlier version of the program: every failure in a session is fatal, the
  child is always bash with only TERM set, the session handler and the timer
  share one `once` that guards the shutdown, and `run` waits for the timer.
 */
module Legacy {
  import opened Common
  import opened Keys
  import opened Terminal
  import Server
  import Cli

  /*
   * The public-key callback.
   */

  /** The line the callback prints for every presented key. */
  function TryingLine(key: PublicKey): (line: string)
    ensures |line| == 14 + |FormatKnownHosts(key)| + 1
    ensures line[..14] == "client trying " && line[14..|line| - 1] == FormatKnownHosts(key) && line[|line| - 1] == '\n'
  {
    "client trying " + FormatKnownHosts(key) + "\n"
  }

  /** The `PublicKeyHandler`: prints the presented key, then scans the authorized keys in order. */
  method PublicKeyHandler(authorizedKeys: seq<PublicKey>, key: PublicKey) returns (accepted: bool, printed: string)
    ensures accepted <==> IsAuthorized(authorizedKeys, key)
    ensures printed == TryingLine(key)
  {
    printed := TryingLine(key);
    for i := 0 to |authorizedKeys|
      invariant forall j | 0 <= j < i :: !KeysEqual(key, authorizedKeys[j])
    {
      if KeysEqual(key, authorizedKeys[i]) {
        return true, printed;
      }
    }
    return false, printed;
  }

  /** The printed line names the key exactly: its known-hosts line can be read back from it. */
  lemma TryingLineNamesKey(key: PublicKey)
    requires forall i | 0 <= i < |key.keyType| :: key.keyType[i] != ' '
    ensures var p := TryingLine(key);
      |p| > 15 && p[..14] == "client trying " && p[|p| - 1] == '\n'
      && ParseKnownHosts(p[14..|p| - 1]) == Some(key)
  {
    var p := TryingLine(key);
    assert p[14..|p| - 1] == FormatKnownHosts(key);
    KnownHostsRoundTrip(key);
  }

  /*
   * One session.
   */

  /** How `handleSession` ended: it returned, or the process died in it through `log.Fatal` or `panic`. */
  datatype SessionEnd = Finished | Fatal(cause: Error) | Panicked(cause: Error)

  /** What handling a session did: how it ended, the command started, the buffers written and the reads used. */
  datatype Handling = Handling(end: SessionEnd, started: Option<Command>, log: seq<seq<byte>>,
                               peer: seq<seq<byte>>, consumed: nat)

  /** The only shell this version runs. */
  const Bash: string := "bash"

  /** The child's command: bash, with an environment holding only the requested terminal type. */
  function BashCommand(term: string): (cmd: Command)
    ensures cmd.path == Bash && |cmd.env| == 1 && cmd.env[0] == "TERM=" + term
  {
    Command(Bash, ["TERM=" + term])
  }

  /** Every way out of the forwarding loop except the device closing kills the process. */
  function LoopEnd(exit: LoopExit): (e: SessionEnd)
    ensures exit.DeviceClosed? <==> e.Finished?
    ensures !exit.DeviceClosed? ==> e == Fatal(exit.cause)
  {
    match exit
    case DeviceClosed => Finished
    case ReadFailed(err) => Fatal(err)
    case LogWriteFailed(err) => Fatal(err)
    case PeerWriteFailed(err) => Fatal(err)
  }

  /** `handleSession` as a value, given the PTY request, the child's outcomes and the reads and writes. */
  function Handle(ptyReq: Option<PtyRequest>, child: Child, outs: seq<ReadOutcome>,
                  logOutcome: seq<Option<Error>>, logBase: nat, peerOutcome: seq<Option<Error>>, peerBase: nat): (h: Handling)
    ensures h.started.Some? <==> ptyReq.Some?
    ensures ptyReq.None? ==> h.end.Finished?
    ensures ptyReq.Some? ==> h.peer <= h.log && |h.log| <= h.consumed <= |outs|
  {
    if ptyReq.None? then Handling(Finished, None, [], [AsciiBytes(Server.NoPtyMessage)], 0)
    else
      var cmd := BashCommand(ptyReq.value.term);
      if child.startErr.Some? then Handling(Panicked(child.startErr.value), Some(cmd), [], [], 0)
      else
        var t := Forward(outs, logOutcome, logBase, peerOutcome, peerBase);
        Handling(LoopEnd(t.exit), Some(cmd), t.log, t.peer, t.consumed)
  }

  /** `handleSession(logW, s)`, with the child given. */
  method HandleSession(logW: Sink, s: Server.Session, child: Child, tty: Pty) returns (end: SessionEnd, started: Option<Command>)
    requires logW != s.peer
    modifies logW, s.peer, tty
    ensures var h := Handle(s.ptyReq, child, old(tty.pending), logW.outcome, |old(logW.written)|,
                            s.peer.outcome, |old(s.peer.written)|);
      && end == h.end && started == h.started
      && logW.written == old(logW.written) + h.log
      && s.peer.written == old(s.peer.written) + h.peer
      && tty.pending == old(tty.pending)[h.consumed..]
  {
    if s.ptyReq.None? {
      var _ := s.peer.Write(AsciiBytes(Server.NoPtyMessage));
      assert tty.pending == old(tty.pending)[0..];
      return Finished, None;
    }
    var cmd := BashCommand(s.ptyReq.value.term);
    started := Some(cmd);
    if child.startErr.Some? {
      assert tty.pending == old(tty.pending)[0..];
      return Panicked(child.startErr.value), started;
    }
    var exit := ForwardOutput(tty, logW, s.peer);
    end := LoopEnd(exit);
  }

  /**
    A PTY session runs bash with exactly `TERM=<term>`; the peer receives a
    prefix of the log's buffers, and the session finishes only when the device
    closed, whatever the child's wait result.
   */
  lemma PtySessionRunsBash(req: PtyRequest, child: Child, outs: seq<ReadOutcome>,
                           logOutcome: seq<Option<Error>>, logBase: nat, peerOutcome: seq<Option<Error>>, peerBase: nat)
    requires child.startErr.None?
    ensures var h := Handle(Some(req), child, outs, logOutcome, logBase, peerOutcome, peerBase);
      var t := Forward(outs, logOutcome, logBase, peerOutcome, peerBase);
      && h.started == Some(Command("bash", ["TERM=" + req.term]))
      && Server.Lookup(h.started.value.env, "TERM") == Some(req.term)
      && h.peer <= h.log
      && (h.end.Finished? <==> t.exit.DeviceClosed?)
      && (forall i | 0 <= i < |h.log| :: h.log[i] == Frame(outs[i].data))
  {
    var e := "TERM=" + req.term;
    assert Server.Defines(e, "TERM") by {
      assert e[..|"TERM"|] == "TERM" && e[|"TERM"|] == '=';
    }
    assert ["TERM=" + req.term][..0] == [];
    PeerPrefixOfLog(outs, logOutcome, logBase, peerOutcome, peerBase);
    LogHoldsReadFrames(outs, logOutcome, logBase, peerOutcome, peerBase);
  }

  /** The child's wait result never influences how a session ends. */
  lemma WaitResultDiscarded(ptyReq: Option<PtyRequest>, startErr: Option<Error>, w1: Option<Error>, w2: Option<Error>,
                            outs: seq<ReadOutcome>, logOutcome: seq<Option<Error>>, logBase: nat,
                            peerOutcome: seq<Option<Error>>, peerBase: nat)
    ensures Handle(ptyReq, Child(startErr, w1), outs, logOutcome, logBase, peerOutcome, peerBase)
         == Handle(ptyReq, Child(startErr, w2), outs, logOutcome, logBase, peerOutcome, peerBase)
  {
  }

  /** A session without a PTY gets exactly the notice and finishes; no child is started and no read is made. */
  lemma NoPtySession(child: Child, outs: seq<ReadOutcome>, logOutcome: seq<Option<Error>>, logBase: nat,
                     peerOutcome: seq<Option<Error>>, peerBase: nat)
    ensures var h := Handle(None, child, outs, logOutcome, logBase, peerOutcome, peerBase);
      && h.end == Finished && h.started.None? && h.log == [] && h.consumed == 0
      && h.peer == [AsciiBytes(Server.NoPtyMessage)]
  {
  }

  /** A failing read, log write or peer write is fatal with that very cause; a failing start panics. */
  lemma FailuresAreFatal(req: PtyRequest, child: Child, outs: seq<ReadOutcome>,
                         logOutcome: seq<Option<Error>>, logBase: nat, peerOutcome: seq<Option<Error>>, peerBase: nat)
    ensures var h := Handle(Some(req), child, outs, logOutcome, logBase, peerOutcome, peerBase);
      var t := Forward(outs, logOutcome, logBase, peerOutcome, peerBase);
      && (child.startErr.Some? ==> h.end == Panicked(child.startErr.value) && h.log == [] && h.peer == [])
      && (child.startErr.None? && t.exit.ReadFailed? ==> h.end == Fatal(t.exit.cause) && h.peer == h.log)
      && (child.startErr.None? && t.exit.LogWriteFailed? ==> h.end == Fatal(t.exit.cause) && |h.log| == |h.peer| + 1)
      && (child.startErr.None? && t.exit.PeerWriteFailed? ==> h.end == Fatal(t.exit.cause) && |h.log| == |h.peer|)
  {
    PeerPrefixOfLog(outs, logOutcome, logBase, peerOutcome, peerBase);
  }

  /*
   * The shared `once`.
   */

  /** What happened under the shared `once` and beside it, in order. */
  datatype Effect =
    | Handled(session: nat) // handleSession began for this session
    | ShutDown              // server.Shutdown was called
    | TimeoutLogged         // the timer printed its "no connection" line

  /**
    The events around the shared `once`, in the order they happen: a
    session's handler calls `once.Do` (with the way handling that session
    would end), the handling running under `once` returns, the timer prints
    its line, and the timer calls `once.Do`. A call made while a body runs
    waits for it and then runs nothing, so it has no effect wherever it is placed.
   */
  datatype Trigger =
    | SessionCalls(session: nat, end: SessionEnd)
    | HandlingReturns
    | TimerLogs
    | TimerCalls

  /** Where the shared `once` stands. */
  datatype Phase =
    | Fresh                    // no body has started
    | Running(end: SessionEnd) // a session's body is running, and its handling will end this way
    | Done                     // a body has completed
    | Dead(end: SessionEnd)    // handling killed the process

  /** The phase of `once` and the effects so far. */
  datatype Gate = Gate(phase: Phase, effects: seq<Effect>)

  const Idle: Gate := Gate(Fresh, [])

  /**
    One event. A dead process reacts to nothing, and effects are only ever
    appended, one at a time. The timer prints whatever the phase; the first
    `once.Do` starts its body; a session's body that returns shuts the server
    down, unless handling killed the process.
   */
  function Step(g: Gate, t: Trigger): (r: Gate)
    ensures g.phase.Dead? ==> r == g
    ensures g.effects <= r.effects && |r.effects| <= |g.effects| + 1
    ensures !g.phase.Fresh? ==> !r.phase.Fresh?
    ensures r.phase.Running? ==> g.phase.Fresh? || g.phase == r.phase
  {
    if g.phase.Dead? then g
    else match t
      case TimerLogs => Gate(g.phase, g.effects + [TimeoutLogged])
      case TimerCalls => if g.phase.Fresh? then Gate(Done, g.effects + [ShutDown]) else g
      case SessionCalls(id, end) => if g.phase.Fresh? then Gate(Running(end), g.effects + [Handled(id)]) else g
      case HandlingReturns =>
        if !g.phase.Running? then g
        else if g.phase.end.Finished? then Gate(Done, g.effects + [ShutDown])
        else Gate(Dead(g.phase.end), g.effects)
  }

  /** The events in the order the goroutines produce them. */
  function Run(g: Gate, ts: seq<Trigger>): (r: Gate)
    ensures g.effects <= r.effects
    ensures g.phase.Dead? ==> r == g
    decreases |ts|
  {
    if ts == [] then g else Run(Step(g, ts[0]), ts[1..])
  }

  lemma {:induction false} RunAppend(g: Gate, a: seq<Trigger>, b: seq<Trigger>)
    ensures Run(g, a + b) == Run(Run(g, a), b)
    decreases |a|
  {
    if a == [] {
      assert a + b == b;
    } else {
      assert (a + b)[0] == a[0] && (a + b)[1..] == a[1..] + b;
      RunAppend(Step(g, a[0]), a[1..], b);
    }
  }

  /** An event that is not a call of `once.Do`. */
  predicate NoCall(t: Trigger) {
    t.HandlingReturns? || t.TimerLogs?
  }

  predicate OnlyLogs(effects: seq<Effect>) {
    forall i | 0 <= i < |effects| :: effects[i] == TimeoutLogged
  }

  /** Before any call of `once.Do` nothing runs: only the timer's line can be printed. */
  lemma {:induction false} BeforeAnyCall(g: Gate, ts: seq<Trigger>)
    requires g.phase.Fresh? && OnlyLogs(g.effects)
    requires forall i | 0 <= i < |ts| :: NoCall(ts[i])
    ensures Run(g, ts).phase.Fresh? && OnlyLogs(Run(g, ts).effects)
    decreases |ts|
  {
    if ts != [] {
      BeforeAnyCall(Step(g, ts[0]), ts[1..]);
    }
  }

  /**
    Session `id` won `once`, and handling it ends as `end`: the handling is
    still running, or it finished and the server was shut down once, or it
    killed the process and the server was never shut down. The session was
    handled exactly once, no other session was, the shutdown comes after the
    handling began, and every other effect is one of the timer's lines.
   */
  predicate SessionWon(g: Gate, id: nat, end: SessionEnd) {
    && (g.phase == Running(end) || (g.phase == Done && end.Finished?) || (g.phase == Dead(end) && !end.Finished?))
    && multiset(g.effects)[Handled(id)] == 1
    && multiset(g.effects)[ShutDown] == (if g.phase == Done then 1 else 0)
    && (forall i | 0 <= i < |g.effects| :: g.effects[i] == Handled(id) || g.effects[i] == ShutDown || g.effects[i] == TimeoutLogged)
    && (forall i, j | 0 <= i < |g.effects| && 0 <= j < |g.effects| && g.effects[i] == ShutDown && g.effects[j] == Handled(id) :: j < i)
  }

  /** The timer won `once`: no session was handled, the server was shut down once, and the rest are the timer's lines. */
  predicate TimerWon(g: Gate) {
    && g.phase == Done
    && multiset(g.effects)[ShutDown] == 1
    && (forall i | 0 <= i < |g.effects| :: g.effects[i] == ShutDown || g.effects[i] == TimeoutLogged)
  }

  lemma StepKeepsSessionWon(g: Gate, id: nat, end: SessionEnd, t: Trigger)
    requires SessionWon(g, id, end)
    ensures SessionWon(Step(g, t), id, end)
  {
    var r := Step(g, t);
    if r.effects != g.effects {
      var x := r.effects[|g.effects|];
      assert r.effects == g.effects + [x];
      assert x == TimeoutLogged || x == ShutDown;
    }
  }

  lemma StepKeepsTimerWon(g: Gate, t: Trigger)
    requires TimerWon(g)
    ensures TimerWon(Step(g, t))
  {
    var r := Step(g, t);
    if r.effects != g.effects {
      assert r.effects == g.effects + [TimeoutLogged];
    }
  }

  lemma {:induction false} RunKeepsSessionWon(g: Gate, id: nat, end: SessionEnd, ts: seq<Trigger>)
    requires SessionWon(g, id, end)
    ensures SessionWon(Run(g, ts), id, end)
    decreases |ts|
  {
    if ts != [] {
      StepKeepsSessionWon(g, id, end, ts[0]);
      RunKeepsSessionWon(Step(g, ts[0]), id, end, ts[1..]);
    }
  }

  lemma {:induction false} RunKeepsTimerWon(g: Gate, ts: seq<Trigger>)
    requires TimerWon(g)
    ensures TimerWon(Run(g, ts))
    decreases |ts|
  {
    if ts != [] {
      StepKeepsTimerWon(g, ts[0]);
      RunKeepsTimerWon(Step(g, ts[0]), ts[1..]);
    }
  }

  /**
    The first call of `once.Do` decides, whatever comes before or after it,
    the timer's line included: a session that calls first is the one handled,
    and the server is shut down only after that handling finished; a timer
    that calls first shuts the server down and no session is ever handled.
   */
  lemma FirstCallWins(pre: seq<Trigger>, t: Trigger, post: seq<Trigger>)
    requires forall i | 0 <= i < |pre| :: NoCall(pre[i])
    requires !NoCall(t)
    ensures t.SessionCalls? ==> SessionWon(Run(Idle, pre + [t] + post), t.session, t.end)
    ensures t.TimerCalls? ==> TimerWon(Run(Idle, pre + [t] + post))
  {
    BeforeAnyCall(Idle, pre);
    var g := Run(Idle, pre);
    RunAppend(Idle, pre + [t], post);
    RunAppend(Idle, pre, [t]);
    assert Run(g, [t]) == Step(g, t) by {
      assert [t][1..] == [];
    }
    var g' := Step(g, t);
    assert g'.effects == g.effects + [g'.effects[|g.effects|]];
    if t.SessionCalls? {
      RunKeepsSessionWon(g', t.session, t.end, post);
    } else {
      RunKeepsTimerWon(g', post);
    }
  }

  /** The position of the first call of `once.Do`, if there is one. */
  function FirstCall(ts: seq<Trigger>): (k: Option<nat>)
    ensures k.Some? ==> k.value < |ts| && !NoCall(ts[k.value]) && forall i | 0 <= i < k.value :: NoCall(ts[i])
    ensures k.None? ==> forall i | 0 <= i < |ts| :: NoCall(ts[i])
    decreases |ts|
  {
    if ts == [] then None
    else if !NoCall(ts[0]) then Some(0)
    else
      var k := FirstCall(ts[1..]);
      if k.None? then None else Some(k.value + 1)
  }

  /**
    For every order of events: the server is shut down at most once, and
    exactly once when the timer called first or the winning session's
    handling finished; at most one session is ever handled.
   */
  lemma ShutDownAtMostOnce(ts: seq<Trigger>)
    ensures var r := Run(Idle, ts);
      && multiset(r.effects)[ShutDown] == (if r.phase == Done then 1 else 0)
      && forall i, j | 0 <= i < j < |r.effects| :: !(r.effects[i].Handled? && r.effects[j].Handled?)
  {
    var k := FirstCall(ts);
    if k.None? {
      BeforeAnyCall(Idle, ts);
    } else {
      var pre, t, post := ts[..k.value], ts[k.value], ts[k.value + 1..];
      assert ts == pre + [t] + post;
      FirstFacts(pre, t, post);
    }
  }

  lemma FirstFacts(pre: seq<Trigger>, t: Trigger, post: seq<Trigger>)
    requires forall i | 0 <= i < |pre| :: NoCall(pre[i])
    requires !NoCall(t)
    ensures var r := Run(Idle, pre + [t] + post);
      && multiset(r.effects)[ShutDown] == (if r.phase == Done then 1 else 0)
      && forall i, j | 0 <= i < j < |r.effects| :: !(r.effects[i].Handled? && r.effects[j].Handled?)
  {
    FirstCallWins(pre, t, post);
    var r := Run(Idle, pre + [t] + post);
    if t.SessionCalls? {
      forall i, j | 0 <= i < j < |r.effects| && r.effects[i].Handled? && r.effects[j].Handled?
        ensures false
      {
        assert r.effects[i] == Handled(t.session) && r.effects[j] == Handled(t.session);
        assert multiset(r.effects)[Handled(t.session)] >= 2 by {
          HandledTwice(r.effects, i, j, Handled(t.session));
        }
      }
    }
  }

  /** An element at two positions is counted at least twice. */
  lemma HandledTwice(es: seq<Effect>, i: nat, j: nat, e: Effect)
    requires i < j < |es| && es[i] == e && es[j] == e
    ensures multiset(es)[e] >= 2
  {
    assert es == es[..j] + [es[j]] + es[j + 1..];
    assert es[i] in multiset(es[..j]);
  }

  /** `handleSession`'s ending as seen by `main`: how the process died, if it did. */
  function Halted(g: Gate): (h: Option<SessionEnd>)
    ensures h.Some? <==> g.phase.Dead?
  {
    if g.phase.Dead? then Some(g.phase.end) else None
  }

  /** The object holding the shared `once` and the log the session handler writes to. */
  class SharedOnce {
    const logW: Sink
    /** Where `once` stands. */
    var phase: Phase
    var effects: seq<Effect>

    function State(): Gate
      reads this
    {
      Gate(phase, effects)
    }

    constructor (logW: Sink)
      ensures State() == Idle && this.logW == logW
    {
      this.logW := logW;
      phase := Fresh;
      effects := [];
    }

    /**
      The handler passed to `server.Handle`: under `once`, handle the session,
      then shut the server down. Run to completion, it is the session's call
      followed by its handling's return; once a body has started, it runs nothing.
     */
    method Handler(s: Server.Session, child: Child, tty: Pty)
      requires logW != s.peer
      modifies this, logW, s.peer, tty
      ensures !old(phase).Fresh? ==> unchanged(this, logW, s.peer, tty)
      ensures old(phase).Fresh? ==>
        var h := Handle(s.ptyReq, child, old(tty.pending), logW.outcome, |old(logW.written)|,
                        s.peer.outcome, |old(s.peer.written)|);
        && State() == Step(Step(old(State()), SessionCalls(s.id, h.end)), HandlingReturns)
        && logW.written == old(logW.written) + h.log
        && s.peer.written == old(s.peer.written) + h.peer
        && tty.pending == old(tty.pending)[h.consumed..]
    {
      if !phase.Fresh? {
        return;
      }
      effects := effects + [Handled(s.id)];
      var end, _ := HandleSession(logW, s, child, tty);
      if end.Finished? {
        phase := Done;
        effects := effects + [ShutDown];
      } else {
        phase := Dead(end);
      }
    }

    /** The timer goroutine when `time.After(timeout)` fires: print the line, then shut down under `once`. */
    method TimerFires()
      modifies this
      ensures State() == Step(Step(old(State()), TimerLogs), TimerCalls)
    {
      if phase.Dead? {
        return;
      }
      effects := effects + [TimeoutLogged];
      if phase.Fresh? {
        phase := Done;
        effects := effects + [ShutDown];
      }
    }
  }

  /*
   * The authorized-keys file.
   */

  /** The line loop of this version: no special case for an empty first line. */
  function LinesResult(lines: seq<seq<byte>>, scanErr: Option<Error>,
                       parse: seq<byte> -> Result<PublicKey, Error>): (r: Result<seq<PublicKey>, Error>)
    ensures r.Ok? <==> scanErr.None? && forall j | 0 <= j < |lines| :: parse(lines[j]).Ok?
    ensures r.Ok? ==> |r.value| == |lines| && forall j | 0 <= j < |lines| :: r.value[j] == parse(lines[j]).value
  {
    match Cli.FirstUnparsable(lines, parse, 0)
    case Some(i) => Err(Wrapped("failed to parse key on line " + Decimal(i), parse(lines[i]).error))
    case None => if scanErr.Some? then Err(Wrapped("scanning file failed", scanErr.value)) else Ok(Cli.ParsedKeys(lines, parse))
  }

  /** `parseAuthorizedKeysFile(path)`: the file always is opened, which may fail with `openErr`. */
  method ParseAuthorizedKeysFile(openErr: Option<Error>, lines: seq<seq<byte>>, scanErr: Option<Error>,
                                 parse: seq<byte> -> Result<PublicKey, Error>) returns (r: Result<seq<PublicKey>, Error>)
    ensures openErr.Some? ==> r == Err(Wrapped("failed to open file", openErr.value))
    ensures openErr.None? ==> r == LinesResult(lines, scanErr, parse)
  {
    if openErr.Some? {
      return Err(Wrapped("failed to open file", openErr.value));
    }
    var keys: seq<PublicKey> := [];
    for i := 0 to |lines|
      invariant |keys| == i
      invariant forall j | 0 <= j < i :: parse(lines[j]).Ok? && keys[j] == parse(lines[j]).value
    {
      var parsed := parse(lines[i]);
      if parsed.Err? {
        Cli.FirstUnparsableIs(lines, parse, i);
        return Err(Wrapped("failed to parse key on line " + Decimal(|keys|), parsed.error));
      }
      keys := keys + [parsed.value];
    }
    Cli.FirstUnparsableIs(lines, parse, |lines|);
    if scanErr.Some? {
      return Err(Wrapped("scanning file failed", scanErr.value));
    }
    assert keys == Cli.ParsedKeys(lines, parse);
    return Ok(keys);
  }

  /**
    The two versions read the same input alike unless its first line is
    empty: this version has no "no keys supplied" notice and hands an empty
    first line to the parser like any other line.
   */
  lemma AgreesWithCurrentVersion(lines: seq<seq<byte>>, scanErr: Option<Error>, parse: seq<byte> -> Result<PublicKey, Error>)
    ensures lines == [] || lines[0] != [] ==> LinesResult(lines, scanErr, parse) == Cli.LinesResult(lines, scanErr, parse)
    ensures lines != [] && lines[0] == [] && parse([]).Err? ==>
      LinesResult(lines, scanErr, parse) == Err(Wrapped("failed to parse key on line 0", parse([]).error))
    ensures LinesResult([], None, parse) == Ok([])
  {
    if lines != [] && lines[0] == [] && parse([]).Err? {
      Cli.FirstUnparsableIs(lines, parse, 0);
      assert "failed to parse key on line " + Decimal(0) == "failed to parse key on line 0";
      assert parse(lines[0]) == parse([]);
    }
  }

  /*
   * `run` and `main`.
   */

  /** `run`'s result: a start-up failure, otherwise the listener's error unless it is `ErrServerClosed`; the timer returns nil. */
  function RunResult(logPath: string, st: Cli.Startup, listenErr: Option<Error>): (r: Option<Error>)
    ensures Cli.StartupError(logPath, st).None? ==>
      r == (if listenErr.Some? && Root(listenErr.value) == ServerClosed then None else listenErr)
    ensures Cli.StartupError(logPath, st).Some? ==> r == Cli.StartupError(logPath, st)
  {
    var startup := Cli.StartupError(logPath, st);
    if startup.Some? then startup
    else if listenErr.Some? then
      IsServerClosedFindsRoot(listenErr.value);
      if IsServerClosed(listenErr.value) then None else listenErr
    else None
  }

  /** The later of two instants. */
  function Later(a: nat, b: nat): (c: nat)
    ensures c >= a && c >= b && (c == a || c == b)
  {
    if a >= b then a else b
  }

  /**
    The instant the server is shut down, in seconds from the start of
    serving: when the body of the session that won `once` returns, or when
    the timer fires if the timer won.
   */
  function ShutdownAt(timeout: nat, bodyEnds: Option<nat>): nat {
    if bodyEnds.Some? then bodyEnds.value else timeout
  }

  /**
    The timer goroutine's end: it fires at `timeout`, prints, and its
    `once.Do` then waits for a winning session's body that is still running.
   */
  function TimerEnds(timeout: nat, bodyEnds: Option<nat>): (t: nat)
    ensures t >= timeout
    ensures bodyEnds.Some? ==> t >= bodyEnds.value
  {
    if bodyEnds.Some? then Later(timeout, bodyEnds.value) else timeout
  }

  /** The listener's end: at the shutdown, or earlier if it fails on its own at `failsAt`. */
  function ListenerEnds(timeout: nat, bodyEnds: Option<nat>, failsAt: Option<nat>): (t: nat)
    ensures t <= ShutdownAt(timeout, bodyEnds)
  {
    var shutdown := ShutdownAt(timeout, bodyEnds);
    if failsAt.Some? && failsAt.value < shutdown then failsAt.value else shutdown
  }

  /**
    When `run` returns, for a session body that finishes: `errgroup.Wait`
    returns when both goroutines have, and nothing cancels the timer.
    `bodyEnds` is when the winning session's body returned (`None`: the
    timer won); `failsAt` is when the listener failed on its own, if it did.
   */
  function ReturnTime(timeout: nat, bodyEnds: Option<nat>, failsAt: Option<nat>): nat {
    Later(TimerEnds(timeout, bodyEnds), ListenerEnds(timeout, bodyEnds, failsAt))
  }

  /**
    `run` never returns before the timeout, and it returns exactly when the
    later of the timeout and the winning body's end is reached, whatever the listener does.
   */
  lemma RunWaitsForTimer(timeout: nat, bodyEnds: Option<nat>, failsAt: Option<nat>)
    ensures ReturnTime(timeout, bodyEnds, failsAt) >= timeout
    ensures ReturnTime(timeout, bodyEnds, failsAt) == (if bodyEnds.Some? then Later(timeout, bodyEnds.value) else timeout)
  {
  }

  /** A session that ends before the timeout still leaves `run` waiting for the full timeout. */
  lemma EarlySessionWaitsForTimeout(timeout: nat, bodyEnds: nat, failsAt: Option<nat>)
    requires bodyEnds <= timeout
    ensures ReturnTime(timeout, Some(bodyEnds), failsAt) == timeout
    ensures ListenerEnds(timeout, Some(bodyEnds), failsAt) <= bodyEnds
  {
  }

  /** `main`'s exit status: 1 for a missing path or a fatal log (`log.Fatal`), 2 for a panic, 1 for a `run` error, else 0. */
  function MainExit(authorizedKeysPath: string, halted: Option<SessionEnd>, result: Option<Error>): (code: int)
    ensures authorizedKeysPath == [] ==> code == 1
    ensures code == 0 <==> authorizedKeysPath != [] && halted.None? && result.None?
  {
    if authorizedKeysPath == [] then 1
    else if halted.Some? then (if halted.value.Panicked? then 2 else 1)
    else if result.Some? then 1
    else 0
  }

  /**
    End to end, with the first call of `once.Do` at `t`: a winning session
    whose handling has returned decides the exit status only by dying (1 for
    a fatal log, 2 for a panic); the child's own exit code never reaches it,
    and a finished session or a timeout with a listener reporting
    `ErrServerClosed` exits with 0.
   */
  lemma LegacyExitStatus(path: string, logPath: string, st: Cli.Startup,
                         pre: seq<Trigger>, t: Trigger, post: seq<Trigger>, listenErr: Option<Error>)
    requires path != [] && Cli.StartupError(logPath, st).None?
    requires forall i | 0 <= i < |pre| :: NoCall(pre[i])
    requires !NoCall(t)
    ensures var r := Run(Idle, pre + [t] + post);
      var code := MainExit(path, Halted(r), RunResult(logPath, st, listenErr));
      && (t.SessionCalls? && t.end.Fatal? && !r.phase.Running? ==> code == 1)
      && (t.SessionCalls? && t.end.Panicked? && !r.phase.Running? ==> code == 2)
      && ((t.TimerCalls? || t.end.Finished?) && listenErr.Some? && Root(listenErr.value) == ServerClosed
          ==> code == 0)
  {
    FirstCallWins(pre, t, post);
    if listenErr.Some? {
      IsServerClosedFindsRoot(listenErr.value);
    }
  }
}
