/** Why a Pattern B session closes, told from its inputs alone: for every open session and every next input,
    whether the session closes on it and for which reason. */
module PatternBClose {
  import opened LiveTypes
  import opened EndReason
  import opened PatternB
  import opened PatternBGrace

  /** The ingest connection broke, or the encoder's failure was recorded. */
  ghost predicate Broken(ins: seq<Input>) {
    Recorded(IngestLost) in ins || Recorded(EncoderBroke) in ins
  }

  /** The reason other goroutines have left behind: a failure outweighs an operator's stop, and a stop
      outweighs the broadcaster's leaving. */
  ghost function LeftBehind(ins: seq<Input>): Reason {
    if Broken(ins) then WorkerFailed
    else if Recorded(OperatorStop) in ins then AdminStop
    else Graceful
  }

  lemma TickKeepsBoth(p: Params, s: Session, t: TickInput)
    ensures DoTick(p, s, t).reason == s.reason && DoTick(p, s, t).cancelled == s.cancelled
  {
  }

  lemma LeftSnoc(ins: seq<Input>, x: Input)
    ensures LeftBehind(ins + [x]) ==
      if x.Recorded? then SetReason(LeftBehind(ins), x.cause.Reason()) else LeftBehind(ins)
    ensures Cancelled in ins + [x] <==> Cancelled in ins || x == Cancelled
  {
    assert forall y :: y in ins + [x] <==> y in ins || y == x;
  }

  lemma {:induction false} OpenKnows(p: Params, stream: Record, stored: Option<Record>, ins: seq<Input>)
    requires Drive(p, Open(stream, stored), ins).closed.None?
    ensures var s := Drive(p, Open(stream, stored), ins);
      s.reason == LeftBehind(ins) && (s.cancelled <==> Cancelled in ins)
  {
    hide DoTick;
    if ins != [] {
      var init, x := ins[..|ins| - 1], ins[|ins| - 1];
      assert ins == init + [x];
      OpenKnows(p, stream, stored, init);
      LeftSnoc(init, x);
      hide LeftBehind, SetReason;
      if x.Tick? {
        TickKeepsBoth(p, Drive(p, Open(stream, stored), init), x.t);
      }
    }
  }

  /** The reason an open session closes for on the next input, if it does. */
  ghost function Verdict(p: Params, ins: seq<Input>, x: Input): Option<Reason> {
    match x
    case Tick(t) =>
      if !NewHigh(ins + [x], |ins|) then None
      else if !t.debitOk || t.answer.Unanswered? then Some(PaymentFailed)
      else if ClosesForBalance(p, ins, x) then Some(InsufficientBalance)
      else None
    case Recorded(_) => None
    case Cancelled => None
    case Noticed => if Cancelled in ins then Some(LeftBehind(ins)) else None
    case EncoderExit(clean) => if clean then Some(LeftBehind(ins)) else Some(WorkerFailed)
  }

  /** Exactly when and why: an open session closes on an input for the reason of the verdict, and stays open
      if there is none. In particular an encoder that breaks closes it for worker failure, and one that exits
      cleanly for what was left behind, gracefully if nothing was. */
  lemma CloseVerdict(p: Params, stream: Record, stored: Option<Record>, ins: seq<Input>, x: Input)
    requires Drive(p, Open(stream, stored), ins).closed.None?
    ensures Drive(p, Open(stream, stored), ins + [x]).closed == Verdict(p, ins, x)
  {
    var s := Drive(p, Open(stream, stored), ins);
    DriveSnoc(p, Open(stream, stored), ins, x);
    OpenKnows(p, stream, stored, ins);
    if x.Tick? {
      GraceAtClose(p, stream, stored, ins, x);
      OpenTracks(p, stream, stored, ins);
      HighIsBillable(ins, s.lastDebited, x.t);
      hide NewHigh, ClosesForBalance;
      TickGrace(p, s, x.t);
    }
  }

  /** Input `k` is the one the session closed on. */
  ghost predicate ClosesAt(p: Params, s0: Session, ins: seq<Input>, k: nat) {
    k < |ins| && Drive(p, s0, ins[..k]).closed.None? && Drive(p, s0, ins[..k + 1]).closed.Some?
  }

  /** Over whole runs: a closed session closed on one input, for the reason of its verdict. */
  lemma {:induction false} ClosedOnce(p: Params, stream: Record, stored: Option<Record>, ins: seq<Input>)
    requires Drive(p, Open(stream, stored), ins).closed.Some?
    ensures exists k: nat :: ClosesAt(p, Open(stream, stored), ins, k)
    ensures forall k: nat | ClosesAt(p, Open(stream, stored), ins, k) ::
              Drive(p, Open(stream, stored), ins).closed == Verdict(p, ins[..k], ins[k])
  {
    hide Verdict, Step;
    var s0 := Open(stream, stored);
    forall k: nat | ClosesAt(p, s0, ins, k) ensures Drive(p, s0, ins).closed == Verdict(p, ins[..k], ins[k]) {
      assert ins[..k] + [ins[k]] == ins[..k + 1];
      CloseVerdict(p, stream, stored, ins[..k], ins[k]);
      DriveClosed(p, s0, ins, k + 1);
    }
    FirstClosed(p, s0, ins);
  }

  lemma {:induction false} FirstClosed(p: Params, s0: Session, ins: seq<Input>)
    requires s0.closed.None? && Drive(p, s0, ins).closed.Some?
    ensures exists k: nat :: ClosesAt(p, s0, ins, k)
  {
    hide Step;
    var init := ins[..|ins| - 1];
    if Drive(p, s0, init).closed.None? {
      assert ins[..|init| + 1] == ins;
      assert ClosesAt(p, s0, ins, |init|);
    } else {
      FirstClosed(p, s0, init);
      var k: nat :| ClosesAt(p, s0, init, k);
      assert init[..k] == ins[..k] && init[..k + 1] == ins[..k + 1];
      assert ClosesAt(p, s0, ins, k);
    }
  }

  /** Worker failure, exactly: a run closed for it if and only if the encoder broke while the session was open,
      or the encoder exited cleanly, or a cancellation was noticed, after a failure had been recorded. */
  lemma WorkerFailedWhen(p: Params, stream: Record, stored: Option<Record>, ins: seq<Input>)
    ensures Drive(p, Open(stream, stored), ins).closed == Some(WorkerFailed) <==>
      exists k: nat :: ClosesAt(p, Open(stream, stored), ins, k)
        && (ins[k] == EncoderExit(false)
            || (Broken(ins[..k]) && (ins[k] == EncoderExit(true) || (ins[k] == Noticed && Cancelled in ins[..k]))))
  {
    hide Step, NewHigh, ClosesForBalance;
    var s0 := Open(stream, stored);
    if Drive(p, s0, ins).closed.Some? {
      ClosedOnce(p, stream, stored, ins);
    } else {
      forall k: nat ensures !ClosesAt(p, s0, ins, k) {
        if ClosesAt(p, s0, ins, k) { DriveClosed(p, s0, ins, k + 1); }
      }
    }
  }
}
