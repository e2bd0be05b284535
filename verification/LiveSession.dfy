/** The loop of a Pattern B session, in the form the worker runs it: variables changed step by step by
    one tick, by the other inputs, and by the closing settlement. */
module LiveSessions {
  import opened LiveTypes
  import opened EndReason
  import opened PatternB

  class LiveSession {
    const p: Params
    var seq_: nat
    var lastDebited: nat
    var graceDeadline: Option<int>
    var inLowBalance: bool
    var stream: Record
    var stored: Option<Record>
    var reason: Reason
    var cancelled: bool
    var closeReason: Option<Reason>
    var log: seq<Action>

    function Value(): Session
      reads this
    {
      Session(seq_, lastDebited, graceDeadline, inLowBalance, stream, stored, reason, cancelled, closeReason, log)
    }

    constructor (p: Params, stream: Record, stored: Option<Record>)
      ensures this.p == p && Value() == Open(stream, stored)
    {
      this.p := p;
      this.seq_ := if stored.Some? then stored.value.debitSeq else 0;
      this.lastDebited := 0;
      this.graceDeadline := None;
      this.inLowBalance := false;
      this.stream := stream;
      this.stored := stored;
      this.reason := Graceful;
      this.cancelled := false;
      this.closeReason := None;
      this.log := [Emit(Ready)];
    }

    method PersistUpdate(e: Edit, ok: bool)
      modifies this`stream, this`stored
      ensures Value() == Persist(old(Value()), e, ok)
    {
      stream := Apply(e, stream);
      if ok && stored.Some? {
        stored := Some(Apply(e, stored.value));
      }
    }

    /** Count the attempt, in memory and in the store, and ask the broker for it. */
    method Charge(encoded: nat, debitOk: bool, bumpOk: bool) returns (units: nat)
      requires encoded > lastDebited
      modifies this`seq_, this`stored, this`log
      ensures Value() == Attempt(old(Value()), encoded, debitOk, bumpOk)
      ensures units == CeilUnits(encoded - lastDebited)
    {
      units := CeilUnits(encoded - lastDebited);
      seq_ := seq_ + 1;
      stored := Bump(stored, bumpOk);
      log := log + [Debit(seq_, units, debitOk)];
    }

    /** Give up on the payment path. */
    method ReportLoss(saveOk: bool)
      modifies this`stream, this`stored, this`log
      ensures var s := LosePath(old(Value()), saveOk);
        Value() == s.(closed := old(closeReason)) && s.closed == Some(PaymentFailed)
    {
      PersistUpdate(LosePayment, saveOk);
      log := log + [Emit(PaymentError)];
    }

    /** The decision after an answered balance check. */
    method ReactToBalance(ok: bool, units: nat, t: TickInput) returns (closeNow: bool)
      requires ok == t.answer.Sufficient?
      modifies this`graceDeadline, this`inLowBalance, this`stream, this`stored, this`log
      ensures var j := Judge(p, old(Value()), t, units);
        && Value() == j.(closed := old(closeReason))
        && (old(closeReason).None? ==> j.closed == if closeNow then Some(InsufficientBalance) else None)
    {
      var remainingRunway := if ok then p.runway else 0;
      log := log + [Emit(UsageTick(seq_, units, remainingRunway, !ok))];
      closeNow := false;
      if !ok {
        if !inLowBalance {
          inLowBalance := true;
          if graceDeadline.None? {
            graceDeadline := Some(t.armAt + p.grace);
          }
          PersistUpdate(EnterLow(graceDeadline), t.saveOk);
          log := log + [Emit(BalanceLow(remainingRunway))];
        }
        if Past(graceDeadline, t.checkAt) {
          closeNow := true;
        }
      } else {
        if inLowBalance {
          inLowBalance := false;
          PersistUpdate(LeaveLow, t.saveOk);
          log := log + [Emit(BalanceRefilled(remainingRunway))];
        }
        graceDeadline := None;
      }
    }

    /** One tick: debit, check, decide. The caller records the close reason. */
    method TickAndDecide(t: TickInput) returns (closeNow: bool, why: Reason)
      requires closeReason.None?
      modifies this`seq_, this`lastDebited, this`graceDeadline, this`inLowBalance, this`stream, this`stored, this`log
      ensures var s := DoTick(p, old(Value()), t);
        Value() == s.(closed := None) && s.closed == if closeNow then Some(why) else None
    {
      hide Judge, LosePath, Attempt;
      closeNow, why := false, Unset;
      if t.encoded > lastDebited {
        var units := Charge(t.encoded, t.debitOk, t.bumpOk);
        if !t.debitOk {
          ReportLoss(t.saveOk);
          return true, PaymentFailed;
        }
        lastDebited := t.encoded;
        log := log + [Check(t.answer)];
        if t.answer.Unanswered? {
          ReportLoss(t.saveOk);
          return true, PaymentFailed;
        }
        closeNow := ReactToBalance(t.answer.Sufficient?, units, t);
        why := if closeNow then InsufficientBalance else Unset;
      }
    }

    /** One turn of the select loop. */
    method Turn(i: Input)
      requires closeReason.None?
      modifies this
      ensures Value() == Step(p, old(Value()), i)
    {
      match i
      case Tick(t) =>
        var closeNow, why := TickAndDecide(t);
        if closeNow {
          closeReason := Some(why);
        }
      case Recorded(cause) =>
        reason := SetReason(reason, cause.Reason());
      case Cancelled =>
        cancelled := true;
      case Noticed =>
        if cancelled {
          closeReason := Some(if reason.Unset? then WorkerFailed else reason);
        }
      case EncoderExit(clean) =>
        if clean {
          closeReason := Some(if reason.Unset? then Graceful else reason);
        } else {
          closeReason := Some(WorkerFailed);
          reason := SetReason(reason, WorkerFailed);
        }
    }

    /** The settlement, the final event, the close with the broker, the terminal save; then the wait for the
        mirror, and once that is over the release. */
    method End(f: FinalInput) returns (released: bool)
      requires closeReason.Some?
      modifies this`seq_, this`stored, this`log
      ensures Value() == Finish(p, old(Value()), f)
      ensures released == Drained(p, old(Value()), f)
    {
      hide Attempt, Terminate;
      if f.encoded > lastDebited {
        var units := Charge(f.encoded, f.debitOk, f.bumpOk);
        if f.debitOk {
          log := log + [Emit(UsageTick(seq_, units, 0, closeReason.value == InsufficientBalance))];
        }
      }
      log := log + [Emit(Ended(closeReason.value, f.encoded / 10)), CloseSession];
      stored := Terminate(stored, f.saveOk, closeReason.value, seq_, f.encoded, f.at);
      released := !p.mirror || cancelled || f.cancelled;
      if released {
        log := log + Parting(p, f.encoded);
      }
    }

    /** A whole run over a list of inputs: read inputs until one closes the session, then settle.
        If none does, the session is still open when the list is used up. The lease is back if the wait for
        the mirror is over. */
    method Run(ins: seq<Input>, f: FinalInput) returns (ended: bool)
      requires closeReason.None?
      modifies this
      ensures var s := Drive(p, old(Value()), ins);
        ended == s.closed.Some? && Value() == if ended then Finish(p, s, f) else s
    {
      ghost var s0 := Value();
      var i := 0;
      while i < |ins| && closeReason.None?
        invariant 0 <= i <= |ins|
        invariant Value() == Drive(p, s0, ins[..i])
      {
        assert ins[..i + 1][..i] == ins[..i];
        Turn(ins[i]);
        i := i + 1;
      }
      assert ins[..|ins|] == ins;
      ended := closeReason.Some?;
      if ended {
        DriveClosed(p, s0, ins, i);
        var _ := End(f);
      }
    }
  }
}
