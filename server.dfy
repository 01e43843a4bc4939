/**
  The one-shot server of the current version of the program: the key check,
  the bridge between one SSH session and a child shell on a pseudoterminal, and
  the gate that lets exactly one session (or the timeout) run and then closes
  the server.
 */
module Server {
  import opened Common
  import opened Keys
  import opened Terminal

  /*
   * The public-key callback.
   */

  /** The server's `PublicKeyHandler`: scans the authorized keys in order and accepts at the first equal one. */
  method PublicKeyHandler(authorizedKeys: seq<PublicKey>, key: PublicKey) returns (accepted: bool)
    ensures accepted <==> IsAuthorized(authorizedKeys, key)
  {
    for i := 0 to |authorizedKeys|
      invariant forall j | 0 <= j < i :: !KeysEqual(key, authorizedKeys[j])
    {
      if KeysEqual(key, authorizedKeys[i]) {
        return true;
      }
    }
    return false;
  }

  /*
   * The child's program and environment.
   */

  const DefaultShell: string := "bash"

  /** The program the session runs: the value of `$SHELL`, or `bash` when that is empty or unset. */
  function Shell(shellVar: string): (shell: string)
    ensures shell != []
    ensures shellVar != [] ==> shell == shellVar
    ensures shellVar == [] ==> shell == DefaultShell
  {
    if shellVar == [] then DefaultShell else shellVar
  }

  /** `cmd.Env`: the parent's environment when it is copied, otherwise nothing, and then one `TERM=` entry. */
  function ChildEnv(copyEnv: bool, environ: seq<string>, term: string): (env: seq<string>)
    ensures |env| == (if copyEnv then |environ| else 0) + 1
    ensures env[|env| - 1] == "TERM=" + term
    ensures forall i | 0 <= i < |env| - 1 :: copyEnv && env[i] == environ[i]
  {
    (if copyEnv then environ else []) + ["TERM=" + term]
  }

  /** The environment entry `entry` sets the variable `name`: it reads `name=value`. */
  predicate Defines(entry: string, name: string) {
    |entry| > |name| && entry[..|name|] == name && entry[|name|] == '='
  }

  /**
    The value a child started with `env` sees for `name`: the process-execution
    package keeps the last of several entries for one name.
   */
  function Lookup(env: seq<string>, name: string): (v: Option<string>)
    ensures v.Some? <==> exists i | 0 <= i < |env| :: Defines(env[i], name)
    ensures v.Some? ==> exists i | 0 <= i < |env| :: && Defines(env[i], name) && v.value == env[i][|name| + 1..]
                                                     && forall j | i < j < |env| :: !Defines(env[j], name)
    decreases |env|
  {
    if env == [] then None
    else
      var last := env[|env| - 1];
      if Defines(last, name) then Some(last[|name| + 1..])
      else
        var v := Lookup(env[..|env| - 1], name);
        assert forall i | 0 <= i < |env| - 1 :: env[..|env| - 1][i] == env[i];
        v
  }

  /** The child always sees the requested terminal type, whatever the parent's environment holds. */
  lemma ChildSeesTerm(copyEnv: bool, environ: seq<string>, term: string)
    ensures Lookup(ChildEnv(copyEnv, environ, term), "TERM") == Some(term)
  {
    var env := ChildEnv(copyEnv, environ, term);
    assert Defines(env[|env| - 1], "TERM");
  }

  /** Every other variable is the parent's when the environment is copied, and unset when it is not. */
  lemma ChildSeesParent(copyEnv: bool, environ: seq<string>, term: string, name: string)
    requires name != "TERM"
    requires forall i | 0 <= i < |name| :: name[i] != '='
    ensures Lookup(ChildEnv(copyEnv, environ, term), name) == (if copyEnv then Lookup(environ, name) else None)
  {
    var env := ChildEnv(copyEnv, environ, term);
    TermEntryDefinesOnlyTerm(term, name);
    assert env[..|env| - 1] == (if copyEnv then environ else []);
  }

  /** A `TERM=` entry sets no variable but TERM. */
  lemma TermEntryDefinesOnlyTerm(term: string, name: string)
    requires forall i | 0 <= i < |name| :: name[i] != '='
    ensures Defines("TERM=" + term, name) ==> name == "TERM"
  {
    var entry := "TERM=" + term;
    if Defines(entry, name) {
      assert forall i | 0 <= i < |name| :: entry[i] == name[i];
      assert entry[4] == '=';
      assert forall i | 0 <= i < 4 :: entry[i] != '=';
      assert |name| == 4;
      assert name == entry[..4];
    }
  }

  /*
   * Window sizes.
   */

  /** Go's conversion `uint16(x)` of an int: its low 16 bits, so the value in range congruent to `x` modulo 2^16. */
  function Uint16(x: int): (r: int)
    ensures 0 <= r < 0x1_0000
    ensures (x - r) % 0x1_0000 == 0
  {
    x % 0x1_0000
  }

  /** The `struct{ h, w, x, y uint16 }` handed to TIOCSWINSZ. */
  datatype Winsize = Winsize(rows: int, cols: int, xpixel: int, ypixel: int)

  /** `setWinsize(f, w, h)`: rows are the height, columns the width, both truncated to 16 bits; no pixel sizes. */
  function SetWinsize(w: int, h: int): (ws: Winsize)
    ensures ws.xpixel == 0 && ws.ypixel == 0
    ensures 0 <= ws.rows < 0x1_0000 && 0 <= ws.cols < 0x1_0000
  {
    Winsize(Uint16(h), Uint16(w), 0, 0)
  }

  /** A size that fits in 16 bits is passed unchanged, height first. */
  lemma WinsizeExact(w: int, h: int)
    requires 0 <= w < 0x1_0000 && 0 <= h < 0x1_0000
    ensures SetWinsize(w, h) == Winsize(h, w, 0, 0)
  {
  }

  /** The resize goroutine: one `setWinsize` for every window change the session reports, in order. */
  method ApplyResizes(changes: seq<Window>) returns (records: seq<Winsize>)
    ensures |records| == |changes|
    ensures forall i | 0 <= i < |changes| :: records[i] == SetWinsize(changes[i].width, changes[i].height)
  {
    records := [];
    for i := 0 to |changes|
      invariant |records| == i
      invariant forall j | 0 <= j < i :: records[j] == SetWinsize(changes[j].width, changes[j].height)
    {
      records := records + [SetWinsize(changes[i].width, changes[i].height)];
    }
  }

  /** Sizes that agree modulo 2^16 give the same record. */
  lemma WinsizeWraps(w: int, h: int, w': int, h': int)
    requires (w - w') % 0x1_0000 == 0 && (h - h') % 0x1_0000 == 0
    ensures SetWinsize(w, h) == SetWinsize(w', h')
  {
    var rw, rw', rh, rh' := Uint16(w), Uint16(w'), Uint16(h), Uint16(h');
    assert (rw - rw') % 0x1_0000 == 0 && (rh - rh') % 0x1_0000 == 0;
    assert -0x1_0000 < rw - rw' < 0x1_0000 && -0x1_0000 < rh - rh' < 0x1_0000;
  }

  /*
   * Bridging one session.
   */

  /** An `ssh.Session`: its identity, what `s.Pty()` reports, and the channel to the peer. */
  datatype Session = Session(id: nat, ptyReq: Option<PtyRequest>, peer: Sink)

  const NoPtyMessage: string := "No PTY requested.\n"

  /** What bridging a session did: its result, the command handed to `pty.Start`, the buffers written, the reads used. */
  datatype Bridging = Bridging(result: Option<Error>, started: Option<Command>, log: seq<seq<byte>>,
                               peer: seq<seq<byte>>, consumed: nat)

  /** The result of `handleSSHSession` once the forwarding loop has stopped. */
  function SessionResult(exit: LoopExit, waitErr: Option<Error>): (r: Option<Error>)
    ensures exit.DeviceClosed? ==> r == waitErr
    ensures exit.ReadFailed? ==> r == Some(Wrapped("failed to read from command", exit.cause))
    ensures exit.LogWriteFailed? ==> r == Some(Wrapped("failed to write to log", exit.cause))
    ensures exit.PeerWriteFailed? ==> r == Some(Wrapped("failed to write to session", exit.cause))
  {
    match exit
    case DeviceClosed => waitErr
    case ReadFailed(e) => Some(Wrapped("failed to read from command", e))
    case LogWriteFailed(e) => Some(Wrapped("failed to write to log", e))
    case PeerWriteFailed(e) => Some(Wrapped("failed to write to session", e))
  }

  /**
    `handleSSHSession` as a value: what it does with the session `ptyReq`
    describes, given what the child does and what the reads and writes return.
   */
  function Bridge(copyEnv: bool, shellVar: string, environ: seq<string>, ptyReq: Option<PtyRequest>, child: Child,
                  outs: seq<ReadOutcome>, logOutcome: seq<Option<Error>>, logBase: nat,
                  peerOutcome: seq<Option<Error>>, peerBase: nat): (b: Bridging)
    ensures b.started.Some? <==> ptyReq.Some?
    ensures ptyReq.Some? ==> b.peer <= b.log && |b.log| <= b.consumed <= |outs|
    ensures ptyReq.Some? ==> b.started.value == Command(Shell(shellVar), ChildEnv(copyEnv, environ, ptyReq.value.term))
  {
    if ptyReq.None? then Bridging(None, None, [], [AsciiBytes(NoPtyMessage)], 0)
    else
      var cmd := Command(Shell(shellVar), ChildEnv(copyEnv, environ, ptyReq.value.term));
      if child.startErr.Some? then Bridging(Some(Wrapped("failed to start pty", child.startErr.value)), Some(cmd), [], [], 0)
      else
        var t := Forward(outs, logOutcome, logBase, peerOutcome, peerBase);
        Bridging(SessionResult(t.exit, child.waitErr), Some(cmd), t.log, t.peer, t.consumed)
  }

  /** `handleSSHSession(logWriter, copyEnv, s)`, with `$SHELL`, the parent's environment and the child given. */
  method HandleSSHSession(logWriter: Sink, copyEnv: bool, shellVar: string, environ: seq<string>,
                          s: Session, child: Child, tty: Pty) returns (result: Option<Error>, started: Option<Command>)
    requires logWriter != s.peer
    modifies logWriter, s.peer, tty
    ensures var b := Bridge(copyEnv, shellVar, environ, s.ptyReq, child, old(tty.pending),
                            logWriter.outcome, |old(logWriter.written)|, s.peer.outcome, |old(s.peer.written)|);
      && result == b.result && started == b.started
      && logWriter.written == old(logWriter.written) + b.log
      && s.peer.written == old(s.peer.written) + b.peer
      && tty.pending == old(tty.pending)[b.consumed..]
  {
    var shell := Shell(shellVar);
    if s.ptyReq.None? {
      var _ := s.peer.Write(AsciiBytes(NoPtyMessage));
      assert tty.pending == old(tty.pending)[0..];
      return None, None;
    }
    var cmd := Command(shell, ChildEnv(copyEnv, environ, s.ptyReq.value.term));
    started := Some(cmd);
    if child.startErr.Some? {
      assert tty.pending == old(tty.pending)[0..];
      return Some(Wrapped("failed to start pty", child.startErr.value)), started;
    }
    var exit := ForwardOutput(tty, logWriter, s.peer);
    result := SessionResult(exit, child.waitErr);
  }

  /** A session without a PTY gets exactly the notice and a nil result; no child is started and no read is made. */
  lemma NoPtySession(copyEnv: bool, shellVar: string, environ: seq<string>, child: Child,
                     outs: seq<ReadOutcome>, logOutcome: seq<Option<Error>>, logBase: nat,
                     peerOutcome: seq<Option<Error>>, peerBase: nat)
    ensures var b := Bridge(copyEnv, shellVar, environ, None, child, outs, logOutcome, logBase, peerOutcome, peerBase);
      && b.result.None? && b.started.None? && b.log == [] && b.consumed == 0
      && b.peer == [AsciiBytes(NoPtyMessage)] && |b.peer[0]| == 18 && b.peer[0][|b.peer[0]| - 1] == '\n' as int
  {
  }

  /**
    A PTY session starts the shell `$SHELL` (or bash) whose environment gives
    TERM the requested type; the peer then receives a prefix of the log's
    buffers, each a full frame of a successful read, and a failure of the last
    log write means the peer was not written.
   */
  lemma PtySession(copyEnv: bool, shellVar: string, environ: seq<string>, req: PtyRequest, child: Child,
                   outs: seq<ReadOutcome>, logOutcome: seq<Option<Error>>, logBase: nat,
                   peerOutcome: seq<Option<Error>>, peerBase: nat)
    ensures var b := Bridge(copyEnv, shellVar, environ, Some(req), child, outs, logOutcome, logBase, peerOutcome, peerBase);
      && b.started.Some? && b.started.value.path == Shell(shellVar)
      && Lookup(b.started.value.env, "TERM") == Some(req.term)
      && b.peer <= b.log
      && (forall i | 0 <= i < |b.log| :: i < |outs| && outs[i].status.NoError? && b.log[i] == Frame(outs[i].data))
      && (|b.log| == |b.peer| + 1 ==> b.result.Some? && b.result.value.Wrapped? && b.result.value.context == "failed to write to log")
  {
    ChildSeesTerm(copyEnv, environ, req.term);
    PeerPrefixOfLog(outs, logOutcome, logBase, peerOutcome, peerBase);
    LogHoldsReadFrames(outs, logOutcome, logBase, peerOutcome, peerBase);
  }

  /** When the pseudoterminal cannot be started the result wraps the cause and nothing is forwarded. */
  lemma StartFailure(copyEnv: bool, shellVar: string, environ: seq<string>, req: PtyRequest, child: Child,
                     outs: seq<ReadOutcome>, logOutcome: seq<Option<Error>>, logBase: nat,
                     peerOutcome: seq<Option<Error>>, peerBase: nat)
    requires child.startErr.Some?
    ensures var b := Bridge(copyEnv, shellVar, environ, Some(req), child, outs, logOutcome, logBase, peerOutcome, peerBase);
      && b.result == Some(Wrapped("failed to start pty", child.startErr.value))
      && b.log == [] && b.peer == [] && b.consumed == 0
  {
  }

  /**
    A read error ends the session with "failed to read from command" and
    nothing written in that round; the child's wait result is returned only
    when the device closed.
   */
  lemma ReadFailureOrWait(copyEnv: bool, shellVar: string, environ: seq<string>, req: PtyRequest, child: Child,
                          outs: seq<ReadOutcome>, logOutcome: seq<Option<Error>>, logBase: nat,
                          peerOutcome: seq<Option<Error>>, peerBase: nat)
    requires child.startErr.None?
    ensures var b := Bridge(copyEnv, shellVar, environ, Some(req), child, outs, logOutcome, logBase, peerOutcome, peerBase);
      var n := |b.log|;
      && (n < |outs| && outs[n].status.OtherError? && (forall i | 0 <= i < n :: RoundOk(outs, logOutcome, logBase, peerOutcome, peerBase, i))
          ==> b.result == Some(Wrapped("failed to read from command", outs[n].status.cause)) && b.peer == b.log)
      && (n < |outs| && outs[n].status.PathError? && (forall i | 0 <= i < n :: RoundOk(outs, logOutcome, logBase, peerOutcome, peerBase, i))
          ==> b.result == child.waitErr && b.consumed == n + 1)
  {
    var t := Forward(outs, logOutcome, logBase, peerOutcome, peerBase);
    var n := |t.log|;
    if n < |outs| && !outs[n].status.NoError? && (forall i | 0 <= i < n :: RoundOk(outs, logOutcome, logBase, peerOutcome, peerBase, i)) {
      ForwardEnds(outs, logOutcome, logBase, peerOutcome, peerBase, Rounds(outs, logOutcome, logBase, peerOutcome, peerBase, 0));
      RoundsExactly(outs, logOutcome, logBase, peerOutcome, peerBase, n);
    }
  }

  /*
   * The one-shot gate.
   */

  /** What a body guarded by `once` did, in order. */
  datatype Effect =
    | Bridged(session: nat)      // handleSSHSession ran for this session
    | Recorded(err: Option<Error>) // sessionErr was assigned
    | Closed                     // server.Close was called
    | TimeoutWarned              // the no-connection warning was logged

  /** An event that reaches the gate: an authenticated session (with the result bridging it would give) or the timer. */
  datatype Trigger = SessionTrigger(session: nat, result: Option<Error>) | TimeoutTrigger

  /** The gate: whether `once` has run, the recorded `sessionErr`, and the effects so far. */
  datatype Gate = Gate(done: bool, sessionErr: Option<Error>, effects: seq<Effect>)

  /** A new server: `once` not yet run and `sessionErr` nil. */
  const Idle: Gate := Gate(false, None, [])

  /** One trigger: the first one runs its body, every later one does nothing. */
  function Step(g: Gate, t: Trigger): (r: Gate)
    ensures g.done ==> r == g
    ensures r.done && g.effects <= r.effects
    ensures !g.done ==> |r.effects| > |g.effects| && r.effects[|r.effects| - 1] == Closed
    ensures t.TimeoutTrigger? ==> r.sessionErr == g.sessionErr
  {
    if g.done then g
    else match t
      case SessionTrigger(id, result) => Gate(true, result, g.effects + [Bridged(id), Recorded(result), Closed])
      case TimeoutTrigger => Gate(true, g.sessionErr, g.effects + [TimeoutWarned, Closed])
  }

  /** The triggers in the order the goroutines reach `once.Do`. */
  function Run(g: Gate, ts: seq<Trigger>): (r: Gate)
    ensures r.done <==> g.done || ts != []
    ensures g.effects <= r.effects
    decreases |ts|
  {
    if ts == [] then g else Run(Step(g, ts[0]), ts[1..])
  }

  /** Once a body has run, no trigger changes anything. */
  lemma {:induction false} RunAfterDone(g: Gate, ts: seq<Trigger>)
    requires g.done
    ensures Run(g, ts) == g
    decreases |ts|
  {
    if ts != [] {
      RunAfterDone(Step(g, ts[0]), ts[1..]);
    }
  }

  /**
    The first trigger decides everything: a winning session bridges, records
    its result and then closes the server; a winning timeout warns and closes
    the server and leaves `sessionErr` nil. Without triggers nothing runs.
   */
  lemma FirstTriggerWins(ts: seq<Trigger>)
    ensures var g := Run(Idle, ts);
      && (ts == [] ==> g == Idle)
      && (ts != [] && ts[0].SessionTrigger? ==>
            g == Gate(true, ts[0].result, [Bridged(ts[0].session), Recorded(ts[0].result), Closed]))
      && (ts != [] && ts[0].TimeoutTrigger? ==> g == Gate(true, None, [TimeoutWarned, Closed]))
  {
    if ts != [] {
      RunAfterDone(Step(Idle, ts[0]), ts[1..]);
    }
  }

  /** The number of times `server.Close` was called. */
  function Closes(effects: seq<Effect>): nat
    decreases |effects|
  {
    if effects == [] then 0 else (if effects[0] == Closed then 1 else 0) + Closes(effects[1..])
  }

  /** The guarded body runs at most once: exactly one close if any trigger came, none otherwise, and at most one bridge. */
  lemma AtMostOnce(ts: seq<Trigger>)
    ensures Closes(Run(Idle, ts).effects) == (if ts == [] then 0 else 1)
    ensures forall i, j | 0 <= i < j < |Run(Idle, ts).effects| :: !(Run(Idle, ts).effects[i].Bridged? && Run(Idle, ts).effects[j].Bridged?)
  {
    FirstTriggerWins(ts);
    if ts != [] {
      var e := Run(Idle, ts).effects;
      if ts[0].SessionTrigger? {
        assert e[1..][1..][1..] == [];
      } else {
        assert e[1..][1..] == [];
      }
    }
  }

  /** Triggers after the first one can be dropped. */
  lemma LaterTriggersInert(ts: seq<Trigger>, later: seq<Trigger>)
    requires ts != []
    ensures Run(Idle, ts + later) == Run(Idle, ts)
  {
    FirstTriggerWins(ts);
    FirstTriggerWins(ts + later);
  }

  /*
   * Authentication in front of the gate.
   */

  /** A connection attempt presenting a key (and the result bridging it would give), or the timer firing. */
  datatype Attempt = Connect(key: PublicKey, session: nat, result: Option<Error>) | TimerFires

  /** The triggers that reach the gate: a connection whose key is rejected never gets a session. */
  function Admit(authorizedKeys: seq<PublicKey>, attempts: seq<Attempt>): (ts: seq<Trigger>)
    ensures |ts| <= |attempts|
    decreases |attempts|
  {
    if attempts == [] then []
    else
      var rest := Admit(authorizedKeys, attempts[1..]);
      match attempts[0]
      case TimerFires => [TimeoutTrigger] + rest
      case Connect(key, id, result) =>
        if IsAuthorized(authorizedKeys, key) then [SessionTrigger(id, result)] + rest else rest
  }

  lemma {:induction false} AdmitAppend(authorizedKeys: seq<PublicKey>, a: seq<Attempt>, b: seq<Attempt>)
    ensures Admit(authorizedKeys, a + b) == Admit(authorizedKeys, a) + Admit(authorizedKeys, b)
    decreases |a|
  {
    if a != [] {
      assert (a + b)[0] == a[0];
      assert (a + b)[1..] == a[1..] + b;
      AdmitAppend(authorizedKeys, a[1..], b);
      var ra, rb := Admit(authorizedKeys, a[1..]), Admit(authorizedKeys, b);
      assert Admit(authorizedKeys, a + b) == Admit(authorizedKeys, [a[0]]) + (ra + rb);
      assert Admit(authorizedKeys, a) == Admit(authorizedKeys, [a[0]]) + ra;
    } else {
      assert a + b == b;
    }
  }

  /** A rejected connection, wherever it comes, leaves the gate as it would have been without it. */
  lemma RejectionIsInert(authorizedKeys: seq<PublicKey>, before: seq<Attempt>, key: PublicKey, id: nat,
                         result: Option<Error>, after: seq<Attempt>)
    requires !IsAuthorized(authorizedKeys, key)
    ensures Run(Idle, Admit(authorizedKeys, before + [Connect(key, id, result)] + after))
         == Run(Idle, Admit(authorizedKeys, before + after))
  {
    var c := [Connect(key, id, result)];
    assert c[1..] == [];
    assert Admit(authorizedKeys, c) == [];
    AdmitAppend(authorizedKeys, before + [Connect(key, id, result)], after);
    AdmitAppend(authorizedKeys, before, [Connect(key, id, result)]);
    AdmitAppend(authorizedKeys, before, after);
    assert Admit(authorizedKeys, before) + [] == Admit(authorizedKeys, before);
  }

  /**
    An accepted connection that is the first to reach the gate is served:
    rejected connections before it do not stop it, and whatever comes after
    it changes nothing.
   */
  lemma AcceptedReachesGate(authorizedKeys: seq<PublicKey>, before: seq<Attempt>, key: PublicKey, id: nat,
                            result: Option<Error>, after: seq<Attempt>)
    requires IsAuthorized(authorizedKeys, key) && Admit(authorizedKeys, before) == []
    ensures Run(Idle, Admit(authorizedKeys, before + [Connect(key, id, result)] + after))
         == Gate(true, result, [Bridged(id), Recorded(result), Closed])
  {
    var c := [Connect(key, id, result)];
    assert c[1..] == [];
    assert Admit(authorizedKeys, c) == [SessionTrigger(id, result)];
    AdmitAppend(authorizedKeys, before + c, after);
    AdmitAppend(authorizedKeys, before, c);
    var ts := Admit(authorizedKeys, before + c + after);
    assert ts[0] == SessionTrigger(id, result);
    FirstTriggerWins(ts);
  }

  /** With no authorized keys no session is ever bridged: only the timeout can close the server. */
  lemma {:induction false} NoKeysNoSession(attempts: seq<Attempt>)
    ensures forall t | t in Admit([], attempts) :: t.TimeoutTrigger?
    ensures var g := Run(Idle, Admit([], attempts)); g.sessionErr.None? && forall e | e in g.effects :: !e.Bridged?
    decreases |attempts|
  {
    if attempts != [] {
      NoKeysNoSession(attempts[1..]);
    }
    var ts := Admit([], attempts);
    FirstTriggerWins(ts);
  }

  /*
   * The server object.
   */

  /** `oneTimeServer`, with the closures' captured configuration as constants. */
  class OneTimeServer {
    const authorizedKeys: seq<PublicKey>
    const logWriter: Sink
    const copyEnv: bool
    const shellVar: string
    const environ: seq<string>
    /** Whether `once` has run a body. */
    var done: bool
    var sessionErr: Option<Error>
    /** What the guarded bodies did, in order. */
    var effects: seq<Effect>

    function State(): Gate
      reads this
    {
      Gate(done, sessionErr, effects)
    }

    /** `newOneTimeServer`: nothing has run and no error is recorded. */
    constructor (authorizedKeys: seq<PublicKey>, logWriter: Sink, copyEnv: bool, shellVar: string, environ: seq<string>)
      ensures State() == Idle
      ensures this.authorizedKeys == authorizedKeys && this.logWriter == logWriter && this.copyEnv == copyEnv
      ensures this.shellVar == shellVar && this.environ == environ
    {
      this.authorizedKeys := authorizedKeys;
      this.logWriter := logWriter;
      this.copyEnv := copyEnv;
      this.shellVar := shellVar;
      this.environ := environ;
      done := false;
      sessionErr := None;
      effects := [];
    }

    /** The server's `PublicKeyHandler`, over the keys the server was made with. */
    method Authenticate(key: PublicKey) returns (accepted: bool)
      ensures accepted <==> IsAuthorized(authorizedKeys, key)
    {
      accepted := PublicKeyHandler(authorizedKeys, key);
    }

    /** The handler passed to `server.Handle`: the first trigger bridges the session, records its result and closes the server. */
    method Handle(s: Session, child: Child, tty: Pty)
      requires logWriter != s.peer
      modifies this, logWriter, s.peer, tty
      ensures old(done) ==> unchanged(this, logWriter, s.peer, tty)
      ensures !old(done) ==>
        var b := Bridge(copyEnv, shellVar, environ, s.ptyReq, child, old(tty.pending),
                        logWriter.outcome, |old(logWriter.written)|, s.peer.outcome, |old(s.peer.written)|);
        && State() == Step(old(State()), SessionTrigger(s.id, b.result))
        && logWriter.written == old(logWriter.written) + b.log
        && s.peer.written == old(s.peer.written) + b.peer
        && tty.pending == old(tty.pending)[b.consumed..]
    {
      if done {
        return;
      }
      done := true;
      effects := effects + [Bridged(s.id)];
      var result, _ := HandleSSHSession(logWriter, copyEnv, shellVar, environ, s, child, tty);
      sessionErr := result;
      effects := effects + [Recorded(result), Closed];
    }

    /** The timer goroutine when `time.After(timeout)` fires: the first trigger warns and closes the server. */
    method Timeout()
      modifies this
      ensures State() == Step(old(State()), TimeoutTrigger)
    {
      if done {
        return;
      }
      done := true;
      effects := effects + [TimeoutWarned, Closed];
    }
  }
}
