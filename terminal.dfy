/**
  The child-to-peer half of the terminal bridge, shared by both versions of the
  program: the pseudoterminal a child writes to, the writers the bridge copies to
  (the transcript log and the peer's session), and the forwarding loop between them.
 */
module Terminal {
  import opened Common

  /** Every iteration of the forwarding loop allocates a buffer of this many bytes. */
  const BufferSize: nat := 1024

  /** What one `Read` into the buffer can deliver. */
  type Chunk = s: seq<byte> | |s| <= BufferSize

  /** The error half of a read: none, an `*os.PathError` (the device has gone), or any other error. */
  datatype ReadStatus = NoError | PathError | OtherError(cause: Error)

  /** The result of one `Read(b)`: the bytes placed in `b` and the error returned with them. */
  datatype ReadOutcome = ReadOutcome(data: Chunk, status: ReadStatus)

  /** What the process-execution collaborator does with a command: the results of `pty.Start` and `cmd.Wait`. */
  datatype Child = Child(startErr: Option<Error>, waitErr: Option<Error>)

  /** An `*exec.Cmd` as handed to `pty.Start`: the program and its `Env`. */
  datatype Command = Command(path: string, env: seq<string>)

  /** A window size the peer reports on the session's window-change channel. */
  datatype Window = Window(width: int, height: int)

  /** `ssh.Pty`, as far as the program reads it: the terminal type the peer requests. */
  datatype PtyRequest = PtyRequest(term: string)

  /** The master side of a pseudoterminal, read by the forwarding loop. */
  class Pty {
    /** The outcomes of the reads still to come, in order. */
    var pending: seq<ReadOutcome>

    constructor (outcomes: seq<ReadOutcome>)
      ensures pending == outcomes
    {
      pending := outcomes;
    }

    /**
      One `Read` of the buffered reader. Once the scripted outcomes are used up
      the child has exited and the device is gone, which Go reports as an `*os.PathError`.
     */
    method Read() returns (r: ReadOutcome)
      modifies this
      ensures old(pending) == [] ==> r == ReadOutcome([], PathError) && pending == []
      ensures old(pending) != [] ==> r == old(pending)[0] && pending == old(pending)[1..]
    {
      if pending == [] {
        r := ReadOutcome([], PathError);
      } else {
        r := pending[0];
        pending := pending[1..];
      }
    }
  }

  /** The k-th of a sequence of write results (counting from zero); a write past the scripted ones succeeds. */
  function Nth(outcomes: seq<Option<Error>>, k: nat): Option<Error> {
    if k < |outcomes| then outcomes[k] else None
  }

  /** An `io.Writer`: the transcript log file or the peer's session. */
  class Sink {
    /** Every buffer handed to `Write`, in order, whether or not the write succeeded. */
    var written: seq<seq<byte>>
    /** The errors returned by the first writes, in order; the writes after them succeed. */
    const outcome: seq<Option<Error>>

    constructor (outcome: seq<Option<Error>>)
      ensures written == [] && this.outcome == outcome
    {
      written := [];
      this.outcome := outcome;
    }

    method Write(b: seq<byte>) returns (err: Option<Error>)
      modifies this
      ensures written == old(written) + [b]
      ensures err == Nth(outcome, |old(written)|)
    {
      err := Nth(outcome, |written|);
      written := written + [b];
    }
  }

  /** The buffer after a read: a fresh zeroed 1024-byte slice whose first bytes are the data read. */
  function Frame(data: Chunk): (b: seq<byte>)
    ensures |b| == BufferSize
    ensures b[..|data|] == data
    ensures forall i | |data| <= i < BufferSize :: b[i] == 0
  {
    data + seq(BufferSize - |data|, _ => 0)
  }

  /** How the forwarding loop stopped. */
  datatype LoopExit =
    | DeviceClosed                 // a read returned an *os.PathError
    | ReadFailed(cause: Error)     // a read returned any other error
    | LogWriteFailed(cause: Error) // the transcript write failed; the peer write was not attempted
    | PeerWriteFailed(cause: Error)

  /** The buffers written to the log and to the peer, how the loop ended, and how many reads it used. */
  datatype Transcript = Transcript(log: seq<seq<byte>>, peer: seq<seq<byte>>, exit: LoopExit, consumed: nat)

  /** The outcome of read `k`, or `None` once the scripted reads are used up. */
  function At(outs: seq<ReadOutcome>, k: nat): (r: Option<ReadOutcome>)
    ensures r.Some? <==> k < |outs|
    ensures r.Some? ==> r.value == outs[k]
  {
    if k < |outs| then Some(outs[k]) else None
  }

  /**
    Round `i` of the loop read data without error and wrote that buffer
    successfully to the log (its write number `logBase + i`) and then to the peer.
   */
  predicate RoundOk(outs: seq<ReadOutcome>, logOutcome: seq<Option<Error>>, logBase: nat,
                    peerOutcome: seq<Option<Error>>, peerBase: nat, i: nat)
  {
    i < |outs| && outs[i].status.NoError? && Nth(logOutcome, logBase + i).None? && Nth(peerOutcome, peerBase + i).None?
  }

  /** The number of consecutive rounds from round `from` on that succeed: all of them do, and the next one does not. */
  function Rounds(outs: seq<ReadOutcome>, logOutcome: seq<Option<Error>>, logBase: nat,
                  peerOutcome: seq<Option<Error>>, peerBase: nat, from: nat): (k: nat)
    ensures from + k <= |outs| || k == 0
    ensures forall i | from <= i < from + k :: RoundOk(outs, logOutcome, logBase, peerOutcome, peerBase, i)
    ensures !RoundOk(outs, logOutcome, logBase, peerOutcome, peerBase, from + k)
    decreases |outs| - from
  {
    if RoundOk(outs, logOutcome, logBase, peerOutcome, peerBase, from) then
      1 + Rounds(outs, logOutcome, logBase, peerOutcome, peerBase, from + 1)
    else 0
  }

  /**
    The round that ends the loop, given its read (`None`: the device is gone)
    and the results its writes would have: the read fails, or the log write
    fails and the peer is not written, or the peer write fails.
   */
  function Ending(read: Option<ReadOutcome>, logErr: Option<Error>, peerErr: Option<Error>): (t: Transcript)
    ensures t.consumed == (if read.Some? then 1 else 0)
    ensures t.peer <= t.log && |t.log| <= 1
  {
    if read.None? then Transcript([], [], DeviceClosed, 0)
    else match read.value.status
      case PathError => Transcript([], [], DeviceClosed, 1)
      case OtherError(e) => Transcript([], [], ReadFailed(e), 1)
      case NoError =>
        var b := Frame(read.value.data);
        if logErr.Some? then Transcript([b], [], LogWriteFailed(logErr.value), 1)
        else if peerErr.Some? then Transcript([b], [b], PeerWriteFailed(peerErr.value), 1)
        else Transcript([b], [b], DeviceClosed, 1) // a successful round: never the ending one
  }

  /** The buffers the first rounds fill, one per read. */
  function Frames(outs: seq<ReadOutcome>): (fs: seq<seq<byte>>)
    ensures |fs| == |outs|
  {
    seq(|outs|, i requires 0 <= i < |outs| => Frame(outs[i].data))
  }

  /**
    The forwarding loop over a sequence of read outcomes, when the log's and the
    peer's writes number `logBase` and `peerBase` so far: the successful rounds
    copy their buffers to both writers, and the first unsuccessful one ends the loop.
   */
  function Forward(outs: seq<ReadOutcome>, logOutcome: seq<Option<Error>>, logBase: nat,
                   peerOutcome: seq<Option<Error>>, peerBase: nat): (t: Transcript)
    ensures t.peer <= t.log && |t.log| <= t.consumed <= |outs|
    ensures t.exit.DeviceClosed? ==> |t.log| == |t.peer|
  {
    var k := Rounds(outs, logOutcome, logBase, peerOutcome, peerBase, 0);
    var fs := Frames(outs[..k]);
    var e := Ending(At(outs, k), Nth(logOutcome, logBase + k), Nth(peerOutcome, peerBase + k));
    Transcript(fs + e.log, fs + e.peer, e.exit, k + e.consumed)
  }

  /**
    The loop read literally, one round per call from round `from` on: the
    reference definition the closed form `Forward` is proved equal to.
   */
  function Loop(outs: seq<ReadOutcome>, logOutcome: seq<Option<Error>>, logBase: nat,
                peerOutcome: seq<Option<Error>>, peerBase: nat, from: nat): (t: Transcript)
    ensures t.peer <= t.log && (from + |t.log| <= |outs| || t.log == [])
    ensures from + t.consumed <= |outs| || t.consumed == 0
    decreases |outs| - from
  {
    if from >= |outs| then Transcript([], [], DeviceClosed, 0)
    else match outs[from].status
      case PathError => Transcript([], [], DeviceClosed, 1)
      case OtherError(e) => Transcript([], [], ReadFailed(e), 1)
      case NoError =>
        var b := Frame(outs[from].data);
        var logErr, peerErr := Nth(logOutcome, logBase + from), Nth(peerOutcome, peerBase + from);
        if logErr.Some? then Transcript([b], [], LogWriteFailed(logErr.value), 1)
        else if peerErr.Some? then Transcript([b], [b], PeerWriteFailed(peerErr.value), 1)
        else
          var rest := Loop(outs, logOutcome, logBase, peerOutcome, peerBase, from + 1);
          Transcript([b] + rest.log, [b] + rest.peer, rest.exit, 1 + rest.consumed)
  }

  lemma FramesCons(outs: seq<ReadOutcome>, from: nat, to: nat)
    requires from < to <= |outs|
    ensures Frames(outs[from..to]) == [Frame(outs[from].data)] + Frames(outs[from + 1..to])
  {
    assert outs[from..to] == [outs[from]] + outs[from + 1..to];
  }

  /** A round that does not succeed is the one that ends the literal loop. */
  lemma LoopStops(outs: seq<ReadOutcome>, logOutcome: seq<Option<Error>>, logBase: nat,
                  peerOutcome: seq<Option<Error>>, peerBase: nat, from: nat)
    requires !RoundOk(outs, logOutcome, logBase, peerOutcome, peerBase, from)
    ensures Loop(outs, logOutcome, logBase, peerOutcome, peerBase, from)
         == Ending(At(outs, from), Nth(logOutcome, logBase + from), Nth(peerOutcome, peerBase + from))
  {
  }

  /** A successful round puts its buffer in front of what the rest of the literal loop writes. */
  lemma LoopRound(outs: seq<ReadOutcome>, logOutcome: seq<Option<Error>>, logBase: nat,
                  peerOutcome: seq<Option<Error>>, peerBase: nat, from: nat)
    requires RoundOk(outs, logOutcome, logBase, peerOutcome, peerBase, from)
    ensures var b, rest := Frame(outs[from].data), Loop(outs, logOutcome, logBase, peerOutcome, peerBase, from + 1);
      Loop(outs, logOutcome, logBase, peerOutcome, peerBase, from)
        == Transcript([b] + rest.log, [b] + rest.peer, rest.exit, 1 + rest.consumed)
  {
  }

  /** What the loop writes and how it ends from round `from` on: the successful rounds, then the ending round. */
  function FromRound(outs: seq<ReadOutcome>, logOutcome: seq<Option<Error>>, logBase: nat,
                     peerOutcome: seq<Option<Error>>, peerBase: nat, from: nat): Transcript
    requires from <= |outs|
  {
    var k := Rounds(outs, logOutcome, logBase, peerOutcome, peerBase, from);
    var fs := Frames(outs[from..from + k]);
    var e := Ending(At(outs, from + k), Nth(logOutcome, logBase + from + k), Nth(peerOutcome, peerBase + from + k));
    Transcript(fs + e.log, fs + e.peer, e.exit, k + e.consumed)
  }

  /** `FromRound` in terms of its parts. */
  lemma FromRoundParts(outs: seq<ReadOutcome>, logOutcome: seq<Option<Error>>, logBase: nat,
                       peerOutcome: seq<Option<Error>>, peerBase: nat, from: nat,
                       k: nat, fs: seq<seq<byte>>, e: Transcript)
    requires from <= |outs| && k == Rounds(outs, logOutcome, logBase, peerOutcome, peerBase, from)
    requires from + k <= |outs| && fs == Frames(outs[from..from + k])
    requires e == Ending(At(outs, from + k), Nth(logOutcome, logBase + from + k), Nth(peerOutcome, peerBase + from + k))
    ensures FromRound(outs, logOutcome, logBase, peerOutcome, peerBase, from) == Transcript(fs + e.log, fs + e.peer, e.exit, k + e.consumed)
  {
  }

  /** A successful round puts its buffer in front of what the later rounds write. */
  lemma FromRoundStep(outs: seq<ReadOutcome>, logOutcome: seq<Option<Error>>, logBase: nat,
                      peerOutcome: seq<Option<Error>>, peerBase: nat, from: nat)
    requires RoundOk(outs, logOutcome, logBase, peerOutcome, peerBase, from)
    ensures var b, rest := Frame(outs[from].data), FromRound(outs, logOutcome, logBase, peerOutcome, peerBase, from + 1);
      FromRound(outs, logOutcome, logBase, peerOutcome, peerBase, from)
        == Transcript([b] + rest.log, [b] + rest.peer, rest.exit, 1 + rest.consumed)
  {
    var k := Rounds(outs, logOutcome, logBase, peerOutcome, peerBase, from);
    var k' := Rounds(outs, logOutcome, logBase, peerOutcome, peerBase, from + 1);
    assert k == 1 + k';
    FramesCons(outs, from, from + k);
    var fs', e := Frames(outs[from + 1..from + k]), Ending(At(outs, from + k), Nth(logOutcome, logBase + from + k), Nth(peerOutcome, peerBase + from + k));
    var b := Frame(outs[from].data);
    FromRoundParts(outs, logOutcome, logBase, peerOutcome, peerBase, from + 1, k', fs', e);
    FromRoundParts(outs, logOutcome, logBase, peerOutcome, peerBase, from, k, [b] + fs', e);
    Associative([b], fs', e.log);
    Associative([b], fs', e.peer);
  }

  /** From any round on, the literal loop makes the successful rounds and then the ending round. */
  lemma {:induction false} LoopInClosedForm(outs: seq<ReadOutcome>, logOutcome: seq<Option<Error>>, logBase: nat,
                                            peerOutcome: seq<Option<Error>>, peerBase: nat, from: nat)
    requires from <= |outs|
    ensures Loop(outs, logOutcome, logBase, peerOutcome, peerBase, from) == FromRound(outs, logOutcome, logBase, peerOutcome, peerBase, from)
    decreases |outs| - from
  {
    if RoundOk(outs, logOutcome, logBase, peerOutcome, peerBase, from) {
      LoopRound(outs, logOutcome, logBase, peerOutcome, peerBase, from);
      LoopInClosedForm(outs, logOutcome, logBase, peerOutcome, peerBase, from + 1);
      FromRoundStep(outs, logOutcome, logBase, peerOutcome, peerBase, from);
    } else {
      LoopStops(outs, logOutcome, logBase, peerOutcome, peerBase, from);
      var e := Ending(At(outs, from), Nth(logOutcome, logBase + from), Nth(peerOutcome, peerBase + from));
      assert Frames(outs[from..from]) == [];
      assert [] + e.log == e.log && [] + e.peer == e.peer;
    }
  }

  /** The closed form and the literal loop agree on every input. */
  lemma ForwardIsLoop(outs: seq<ReadOutcome>, logOutcome: seq<Option<Error>>, logBase: nat,
                      peerOutcome: seq<Option<Error>>, peerBase: nat)
    ensures Forward(outs, logOutcome, logBase, peerOutcome, peerBase) == Loop(outs, logOutcome, logBase, peerOutcome, peerBase, 0)
  {
    LoopInClosedForm(outs, logOutcome, logBase, peerOutcome, peerBase, 0);
    assert outs[0..] == outs;
  }

  /** If the rounds before `k` succeed and round `k` does not, the loop makes exactly `k` successful rounds. */
  lemma RoundsExactly(outs: seq<ReadOutcome>, logOutcome: seq<Option<Error>>, logBase: nat,
                      peerOutcome: seq<Option<Error>>, peerBase: nat, k: nat)
    requires forall i | 0 <= i < k :: RoundOk(outs, logOutcome, logBase, peerOutcome, peerBase, i)
    requires !RoundOk(outs, logOutcome, logBase, peerOutcome, peerBase, k)
    ensures Rounds(outs, logOutcome, logBase, peerOutcome, peerBase, 0) == k
  {
  }

  /** The loop's transcript when `k` rounds succeed and round `k` does not. */
  lemma ForwardEnds(outs: seq<ReadOutcome>, logOutcome: seq<Option<Error>>, logBase: nat,
                    peerOutcome: seq<Option<Error>>, peerBase: nat, k: nat)
    requires forall i | 0 <= i < k :: RoundOk(outs, logOutcome, logBase, peerOutcome, peerBase, i)
    requires !RoundOk(outs, logOutcome, logBase, peerOutcome, peerBase, k)
    ensures var e := Ending(At(outs, k), Nth(logOutcome, logBase + k), Nth(peerOutcome, peerBase + k));
      Forward(outs, logOutcome, logBase, peerOutcome, peerBase)
        == Transcript(Frames(outs[..k]) + e.log, Frames(outs[..k]) + e.peer, e.exit, k + e.consumed)
  {
    RoundsExactly(outs, logOutcome, logBase, peerOutcome, peerBase, k);
  }

  lemma Associative(a: seq<seq<byte>>, b: seq<seq<byte>>, c: seq<seq<byte>>)
    ensures (a + b) + c == a + (b + c)
  {
  }

  lemma FramesSnoc(outs: seq<ReadOutcome>, k: nat)
    requires k < |outs|
    ensures Frames(outs[..k + 1]) == Frames(outs[..k]) + [Frame(outs[k].data)]
  {
    assert outs[..k + 1] == outs[..k] + [outs[k]];
  }

  /**
    The peer receives a prefix of the buffers the log receives: the same
    buffers, one fewer exactly when the last log write failed.
   */
  lemma PeerPrefixOfLog(outs: seq<ReadOutcome>, logOutcome: seq<Option<Error>>, logBase: nat,
                        peerOutcome: seq<Option<Error>>, peerBase: nat)
    ensures var t := Forward(outs, logOutcome, logBase, peerOutcome, peerBase);
      && t.peer <= t.log
      && |t.log| == |t.peer| + (if t.exit.LogWriteFailed? then 1 else 0)
  {
  }

  /** Buffer `i` of the log is the full frame filled by read `i`, which succeeded. */
  lemma LogHoldsReadFrames(outs: seq<ReadOutcome>, logOutcome: seq<Option<Error>>, logBase: nat,
                           peerOutcome: seq<Option<Error>>, peerBase: nat)
    ensures var t := Forward(outs, logOutcome, logBase, peerOutcome, peerBase);
      forall i | 0 <= i < |t.log| :: i < |outs| && outs[i].status.NoError? && t.log[i] == Frame(outs[i].data)
  {
    var t := Forward(outs, logOutcome, logBase, peerOutcome, peerBase);
    var k := Rounds(outs, logOutcome, logBase, peerOutcome, peerBase, 0);
    forall i | 0 <= i < |t.log|
      ensures i < |outs| && outs[i].status.NoError? && t.log[i] == Frame(outs[i].data)
    {
      if i < k {
        assert RoundOk(outs, logOutcome, logBase, peerOutcome, peerBase, i);
      }
    }
  }

  /**
    How the loop ended, in terms of the reads and the writes: every round
    before the last succeeded, and the last one ended the loop because the
    device was gone, the read failed (nothing written), the log write failed
    (the peer not written), or the peer write failed.
   */
  lemma ExitCause(outs: seq<ReadOutcome>, logOutcome: seq<Option<Error>>, logBase: nat,
                  peerOutcome: seq<Option<Error>>, peerBase: nat)
    ensures var t := Forward(outs, logOutcome, logBase, peerOutcome, peerBase);
      var ok := |t.peer| - (if t.exit.PeerWriteFailed? then 1 else 0);
      && (forall i | 0 <= i < ok :: RoundOk(outs, logOutcome, logBase, peerOutcome, peerBase, i))
      && match t.exit
         case DeviceClosed =>
           (ok == |outs| && t.consumed == ok) || (ok < |outs| && outs[ok].status.PathError? && t.consumed == ok + 1)
         case ReadFailed(e) =>
           ok < |outs| && outs[ok].status == OtherError(e) && |t.log| == ok && t.consumed == ok + 1
         case LogWriteFailed(e) =>
           Nth(logOutcome, logBase + ok) == Some(e) && t.consumed == ok + 1
         case PeerWriteFailed(e) =>
           Nth(logOutcome, logBase + ok).None? && Nth(peerOutcome, peerBase + ok) == Some(e) && t.consumed == ok + 1
  {
  }

  /**
    One iteration of the forwarding loop: read into a fresh buffer, write the
    whole buffer to the log, then to the peer. It stops the loop unless the
    round succeeds, and then ends as `Ending` says.
   */
  method ForwardRound(tty: Pty, log: Sink, peer: Sink) returns (stop: bool, exit: LoopExit)
    requires log != peer
    modifies tty, log, peer
    ensures var outs, lb, pb := old(tty.pending), |old(log.written)|, |old(peer.written)|;
      stop <==> !RoundOk(outs, log.outcome, lb, peer.outcome, pb, 0)
    ensures var outs, lb, pb := old(tty.pending), |old(log.written)|, |old(peer.written)|;
      var e := Ending(At(outs, 0), Nth(log.outcome, lb), Nth(peer.outcome, pb));
      stop ==> && exit == e.exit
               && log.written == old(log.written) + e.log
               && peer.written == old(peer.written) + e.peer
               && tty.pending == outs[e.consumed..]
    ensures !stop ==> && tty.pending == old(tty.pending)[1..]
                      && log.written == old(log.written) + [Frame(old(tty.pending)[0].data)]
                      && peer.written == old(peer.written) + [Frame(old(tty.pending)[0].data)]
  {
    var r := tty.Read();
    stop := true;
    if r.status.PathError? {
      exit := DeviceClosed;
      return;
    }
    if r.status.OtherError? {
      exit := ReadFailed(r.status.cause);
      return;
    }
    var b := Frame(r.data);
    var err := log.Write(b);
    if err.Some? {
      exit := LogWriteFailed(err.value);
      return;
    }
    err := peer.Write(b);
    if err.Some? {
      exit := PeerWriteFailed(err.value);
      return;
    }
    stop, exit := false, DeviceClosed;
  }

  /**
    The child-to-peer loop of `handleSSHSession` and `handleSession`, repeated
    rounds until one stops it.
   */
  method ForwardOutput(tty: Pty, log: Sink, peer: Sink) returns (exit: LoopExit)
    requires log != peer
    modifies tty, log, peer
    ensures var t := Forward(old(tty.pending), log.outcome, |old(log.written)|, peer.outcome, |old(peer.written)|);
      && exit == t.exit
      && log.written == old(log.written) + t.log
      && peer.written == old(peer.written) + t.peer
      && tty.pending == old(tty.pending)[t.consumed..]
  {
    ghost var pending0, log0, peer0 := tty.pending, log.written, peer.written;
    ghost var lo, po := log.outcome, peer.outcome;
    ghost var used: nat := 0;
    while true
      invariant used <= |pending0| && tty.pending == pending0[used..]
      invariant forall i | 0 <= i < used :: RoundOk(pending0, lo, |log0|, po, |peer0|, i)
      invariant log.written == log0 + Frames(pending0[..used])
      invariant peer.written == peer0 + Frames(pending0[..used])
      decreases |tty.pending|
    {
      ghost var outs, lb, pb := tty.pending, |log.written|, |peer.written|;
      assert lb == |log0| + used && pb == |peer0| + used;
      assert At(outs, 0) == At(pending0, used);
      assert RoundOk(outs, lo, lb, po, pb, 0) == RoundOk(pending0, lo, |log0|, po, |peer0|, used);
      var stop;
      stop, exit := ForwardRound(tty, log, peer);
      if stop {
        ForwardEnds(pending0, lo, |log0|, po, |peer0|, used);
        ghost var fs, e := Frames(pending0[..used]), Ending(At(pending0, used), Nth(lo, |log0| + used), Nth(po, |peer0| + used));
        Associative(log0, fs, e.log);
        Associative(peer0, fs, e.peer);
        return;
      }
      FramesSnoc(pending0, used);
      used := used + 1;
    }
  }
}
