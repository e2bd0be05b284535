/** One pre-paid ("Pattern B") live session as a state machine: what `runSession` does with
    every answer of its environment. All that leaves the session is kept, in order, in `log`.
    The imperative loop is `LiveSession`; its methods are proved equal to these functions. */
module PatternB {
  import opened LiveTypes
  import opened EndReason

  /** `grace` is the grace period in nanoseconds, `recording` whether the stream is to be recorded, `mirror`
      whether a mirror copies it to the sink. */
  datatype Params = Params(runway: nat, grace: int, recording: bool, mirror: bool)
  {
    predicate Records() {
      recording && mirror
    }
  }

  datatype Event =
    | Ready
    | UsageTick(seq_: nat, units: nat, runway: nat, low: bool)
    | BalanceLow(runway: nat)
    | BalanceRefilled(runway: nat)
    | PaymentError
    | Ended(reason: Reason, finalUnits: nat)
    | RecordingReady(tenths: nat)

  datatype Answer = Sufficient | Insufficient | Unanswered

  /** Effects in the order they happen. A debit that reports an error is not applied. */
  datatype Action =
    | Debit(seq_: nat, units: nat, applied: bool)
    | Check(answer: Answer)
    | Emit(event: Event)
    | CloseSession
    | ReleaseLease

  /** The environment's part of one tick: the encoder clock, the broker's answers, the two clock
      readings (when a grace period would be armed, and when the deadline is checked), and whether
      the two writes to the store succeed. */
  datatype TickInput = TickInput(
    encoded: nat, debitOk: bool, answer: Answer, armAt: int, checkAt: int, bumpOk: bool, saveOk: bool)

  /** `Cancelled` is the session's context being cancelled, `Noticed` the loop seeing that it was: ticks and
      the encoder's exit may still come in between. */
  datatype Input = Tick(t: TickInput) | Recorded(cause: Cause) | Cancelled | Noticed | EncoderExit(clean: bool)

  /** The environment's part of the end. `cancelled` is whether the context has been cancelled since the
      loop was left. */
  datatype FinalInput = FinalInput(encoded: nat, debitOk: bool, bumpOk: bool, saveOk: bool, at: int, cancelled: bool)

  datatype Session = Session(
    seq_: nat,
    lastDebited: nat,
    deadline: Option<int>,
    low: bool,
    stream: Record,          // the in-memory copy
    stored: Option<Record>,  // the record in the store, if there is one
    reason: Reason,          // recorded by other goroutines
    cancelled: bool,         // the context has been cancelled
    closed: Option<Reason>,  // set when the loop is left
    log: seq<Action>)

  function Note(s: Session, actions: seq<Action>): Session {
    s.(log := s.log + actions)
  }

  function Open(stream: Record, stored: Option<Record>): Session {
    Session(if stored.Some? then stored.value.debitSeq else 0, 0, None, false, stream, stored,
            Graceful, false, None, [Emit(Ready)])
  }

  /** The three edits a tick may make to the stream record. */
  datatype Edit = LosePayment | EnterLow(until: Option<int>) | LeaveLow

  function Apply(e: Edit, r: Record): Record {
    match e
    case LosePayment => r.(phase := PaymentLost, errorCode := PaymentFailed)
    case EnterLow(until) => r.(phase := LowBalance, lowBalance := true, graceUntil := until, errorCode := Unset)
    case LeaveLow => r.(phase := Streaming, lowBalance := false, graceUntil := None, errorCode := Unset)
  }

  /** `persistStreamUpdate`: always edits the copy in memory, and the stored record when the write succeeds. */
  function Persist(s: Session, e: Edit, ok: bool): Session {
    s.(stream := Apply(e, s.stream),
       stored := if ok && s.stored.Some? then Some(Apply(e, s.stored.value)) else s.stored)
  }

  function LosePath(s: Session, saveOk: bool): Session {
    Note(Persist(s, LosePayment, saveOk), [Emit(PaymentError)]).(closed := Some(PaymentFailed))
  }

  /** The runway check said no: enter the grace period if not in it, close once it is over. */
  function Starve(p: Params, s: Session, t: TickInput): Session {
    var s1 :=
      if s.low then s
      else
        var d := if s.deadline.None? then Some(t.armAt + p.grace) else s.deadline;
        Note(Persist(s.(low := true, deadline := d), EnterLow(d), t.saveOk), [Emit(BalanceLow(0))]);
    if Past(s1.deadline, t.checkAt) then s1.(closed := Some(InsufficientBalance)) else s1
  }

  /** The runway check said yes: leave the grace period if in it. */
  function Thrive(p: Params, s: Session, t: TickInput): Session {
    var s1 :=
      if s.low then Note(Persist(s.(low := false), LeaveLow, t.saveOk), [Emit(BalanceRefilled(p.runway))])
      else s;
    s1.(deadline := None)
  }

  function Attempt(s: Session, encoded: nat, debitOk: bool, bumpOk: bool): Session
    requires encoded > s.lastDebited
  {
    Note(s.(seq_ := s.seq_ + 1, stored := Bump(s.stored, bumpOk)),
         [Debit(s.seq_ + 1, CeilUnits(encoded - s.lastDebited), debitOk)])
  }

  function Judge(p: Params, s: Session, t: TickInput, units: nat): Session {
    var ok := t.answer.Sufficient?;
    var s1 := Note(s, [Emit(UsageTick(s.seq_, units, if ok then p.runway else 0, !ok))]);
    if ok then Thrive(p, s1, t) else Starve(p, s1, t)
  }

  function DoTick(p: Params, s: Session, t: TickInput): Session {
    if t.encoded <= s.lastDebited then s
    else
      var s1 := Attempt(s, t.encoded, t.debitOk, t.bumpOk);
      if !t.debitOk then LosePath(s1, t.saveOk)
      else
        var s2 := Note(s1.(lastDebited := t.encoded), [Check(t.answer)]);
        if t.answer.Unanswered? then LosePath(s2, t.saveOk)
        else Judge(p, s2, t, CeilUnits(t.encoded - s.lastDebited))
  }

  function Step(p: Params, s: Session, i: Input): Session {
    if s.closed.Some? then s
    else match i
      case Tick(t) => DoTick(p, s, t)
      case Recorded(cause) => s.(reason := SetReason(s.reason, cause.Reason()))
      case Cancelled => s.(cancelled := true)
      case Noticed => if s.cancelled then s.(closed := Some(if s.reason.Unset? then WorkerFailed else s.reason)) else s
      case EncoderExit(true) => s.(closed := Some(if s.reason.Unset? then Graceful else s.reason))
      case EncoderExit(false) => s.(closed := Some(WorkerFailed), reason := SetReason(s.reason, WorkerFailed))
  }

  /** The session after any list of inputs; inputs after the one that closes it are not read. */
  function Drive(p: Params, s: Session, ins: seq<Input>): Session {
    if ins == [] then s else Step(p, Drive(p, s, ins[..|ins| - 1]), ins[|ins| - 1])
  }

  /** Debit what the encoder produced since the last debit. */
  function Settle(s: Session, f: FinalInput): Session
    requires s.closed.Some?
  {
    if f.encoded <= s.lastDebited then s
    else
      var units := CeilUnits(f.encoded - s.lastDebited);
      var s1 := Attempt(s, f.encoded, f.debitOk, f.bumpOk);
      if f.debitOk
      then Note(s1, [Emit(UsageTick(s1.seq_, units, 0, s.closed.value == InsufficientBalance))])
      else s1
  }

  /** Whether the wait for the mirror is over: the mirror runs until the context is cancelled, and leaving
      the loop does not cancel it. */
  predicate Drained(p: Params, s: Session, f: FinalInput) {
    !p.mirror || s.cancelled || f.cancelled
  }

  /** What follows the wait for the mirror. */
  function Parting(p: Params, tenths: nat): seq<Action> {
    (if p.Records() then [Emit(RecordingReady(tenths))] else []) + [ReleaseLease]
  }

  function Finish(p: Params, s: Session, f: FinalInput): Session
    requires s.closed.Some?
  {
    var s1 := Settle(s, f);
    var s2 := Note(s1, [Emit(Ended(s.closed.value, f.encoded / 10)), CloseSession]);
    var s3 := s2.(stored := Terminate(s2.stored, f.saveOk, s.closed.value, s2.seq_, f.encoded, f.at));
    if Drained(p, s, f) then Note(s3, Parting(p, f.encoded)) else s3
  }

  /** The inputs a step reads are all there is: a session runs prefix by prefix. */
  lemma DriveSnoc(p: Params, s: Session, ins: seq<Input>, i: Input)
    ensures Drive(p, s, ins + [i]) == Step(p, Drive(p, s, ins), i)
  {
    assert (ins + [i])[..|ins|] == ins;
  }

  /** Once closed, nothing changes until the settlement. */
  lemma {:induction false} DriveClosed(p: Params, s: Session, ins: seq<Input>, k: nat)
    requires k <= |ins| && Drive(p, s, ins[..k]).closed.Some?
    ensures Drive(p, s, ins) == Drive(p, s, ins[..k])
  {
    if k < |ins| {
      var init := ins[..|ins| - 1];
      assert init[..k] == ins[..k];
      DriveClosed(p, s, init, k);
    } else {
      assert ins[..k] == ins;
    }
  }
}
