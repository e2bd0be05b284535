/** The protocol of a Pattern B session as seen from outside, as an automaton over its actions.

        ready
        ( debit  check  usage.tick  ( low | refilled )? )*
        ( debit  error  |  debit  check  error )?
        ( debit  usage.tick? )?
        ended  close  ( recording.ready?  release )?

    The automaton also checks what the messages say: a usage report repeats the number and units of the
    debit just taken and the answer just given, a balance change is announced exactly when the answer
    changed, and the reason in the final event agrees with how the session ended. */
module PatternBTrace {
  import opened LiveTypes
  import opened EndReason
  import opened PatternB
  import opened PatternBGrace

  datatype State =
    | Start
    | Idle(low: bool)
    | Debited(low: bool, seq_: nat, units: nat)
    | Refused(low: bool)
    | Answered(low: bool, seq_: nat, units: nat, ok: bool)
    | Unreported(low: bool)
    | Announce(low: bool)
    | Failed
    | LastDebited(seq_: nat, units: nat)
    | LastRefused
    | LastReported(low: bool, failed: bool, flag: bool)
    | Over
    | BrokerClosed
    | RecordingSent
    | Released
    | Reject

  function Next(p: Params, q: State, a: Action): State {
    match (q, a)
    case (Start, Emit(Ready)) => Idle(false)
    case (Idle(low), Debit(n, u, true)) => Debited(low, n, u)
    case (Idle(low), Debit(_, _, false)) => Refused(low)
    case (Idle(_), Emit(Ended(r, _))) => if r.PaymentFailed? then Reject else Over
    case (Debited(low, n, u), Check(Unanswered)) => Unreported(low)
    case (Debited(low, n, u), Check(answer)) => Answered(low, n, u, answer.Sufficient?)
    case (Debited(low, n, u), Emit(UsageTick(n', u', 0, flag))) =>
      if n == n' && u == u' then LastReported(low, false, flag) else Reject
    case (Refused(_), Emit(PaymentError)) => Failed
    case (Refused(_), Emit(Ended(r, _))) => if r.PaymentFailed? then Reject else Over
    case (Unreported(_), Emit(PaymentError)) => Failed
    case (Answered(low, n, u, ok), Emit(UsageTick(n', u', runway, flag))) =>
      if !(n == n' && u == u' && runway == (if ok then p.runway else 0) && flag == !ok) then Reject
      else if low == ok then Announce(!ok)
      else Idle(low)
    case (Announce(true), Emit(BalanceLow(0))) => Idle(true)
    case (Announce(false), Emit(BalanceRefilled(r))) => if r == p.runway then Idle(false) else Reject
    case (Failed, Debit(n, u, applied)) => if applied then LastDebited(n, u) else LastRefused
    case (Failed, Emit(Ended(PaymentFailed, _))) => Over
    case (LastDebited(n, u), Emit(UsageTick(n', u', 0, flag))) =>
      if n == n' && u == u' then LastReported(false, true, flag) else Reject
    case (LastRefused, Emit(Ended(PaymentFailed, _))) => Over
    case (LastReported(_, failed, flag), Emit(Ended(r, _))) =>
      if failed == r.PaymentFailed? && flag == r.InsufficientBalance? then Over else Reject
    case (Over, CloseSession) => BrokerClosed
    case (BrokerClosed, Emit(RecordingReady(_))) => if p.Records() then RecordingSent else Reject
    case (BrokerClosed, ReleaseLease) => if p.Records() then Reject else Released
    case (RecordingSent, ReleaseLease) => Released
    case _ => Reject
  }

  function Scan(p: Params, log: seq<Action>): State {
    if log == [] then Start else Next(p, Scan(p, log[..|log| - 1]), log[|log| - 1])
  }

  lemma ScanNote(p: Params, s: Session, a: Action)
    ensures Scan(p, Note(s, [a]).log) == Next(p, Scan(p, s.log), a)
  {
    assert (s.log + [a])[..|s.log|] == s.log;
  }

  /** Where a session's log stands between inputs. */
  ghost predicate InStep(p: Params, s: Session) {
    && FromOutside(s.reason)
    && (s.closed.Some? ==> s.closed.value == PaymentFailed || s.closed.value == InsufficientBalance || FromOutside(s.closed.value))
    && Scan(p, s.log) == if s.closed == Some(PaymentFailed) then Failed else Idle(s.low)
  }

  lemma JudgeInStep(p: Params, s: Session, t: TickInput, units: nat, low: bool)
    requires s.low == low && s.closed.None? && FromOutside(s.reason) && !t.answer.Unanswered?
    requires Scan(p, s.log) == Answered(low, s.seq_, units, t.answer.Sufficient?)
    ensures InStep(p, Judge(p, s, t, units))
  {
    hide Scan;
    var ok := t.answer.Sufficient?;
    var s1 := Note(s, [Emit(UsageTick(s.seq_, units, if ok then p.runway else 0, !ok))]);
    ScanNote(p, s, Emit(UsageTick(s.seq_, units, if ok then p.runway else 0, !ok)));
    ScanNote(p, s1, Emit(BalanceRefilled(p.runway)));
    ScanNote(p, s1, Emit(BalanceLow(0)));
  }

  lemma AttemptScan(p: Params, s: Session, encoded: nat, debitOk: bool, bumpOk: bool)
    requires encoded > s.lastDebited
    ensures Scan(p, Attempt(s, encoded, debitOk, bumpOk).log)
         == Next(p, Scan(p, s.log), Debit(s.seq_ + 1, CeilUnits(encoded - s.lastDebited), debitOk))
  {
    assert Attempt(s, encoded, debitOk, bumpOk).log == Note(s, [Debit(s.seq_ + 1, CeilUnits(encoded - s.lastDebited), debitOk)]).log;
    ScanNote(p, s, Debit(s.seq_ + 1, CeilUnits(encoded - s.lastDebited), debitOk));
  }

  lemma LosePathInStep(p: Params, s: Session, saveOk: bool)
    requires FromOutside(s.reason)
    requires Scan(p, s.log).Refused? || Scan(p, s.log).Unreported?
    ensures InStep(p, LosePath(s, saveOk))
  {
    hide Scan;
    assert LosePath(s, saveOk).log == Note(s, [Emit(PaymentError)]).log;
    ScanNote(p, s, Emit(PaymentError));
  }

  lemma TickInStep(p: Params, s: Session, t: TickInput)
    requires InStep(p, s) && s.closed.None?
    ensures InStep(p, DoTick(p, s, t))
  {
    hide Scan;
    if t.encoded > s.lastDebited {
      var s1 := Attempt(s, t.encoded, t.debitOk, t.bumpOk);
      AttemptScan(p, s, t.encoded, t.debitOk, t.bumpOk);
      if !t.debitOk {
        LosePathInStep(p, s1, t.saveOk);
      } else {
        CheckInStep(p, s1.(lastDebited := t.encoded), t, CeilUnits(t.encoded - s.lastDebited));
      }
    }
  }

  lemma CheckInStep(p: Params, s: Session, t: TickInput, units: nat)
    requires s.closed.None? && FromOutside(s.reason)
    requires Scan(p, s.log) == Debited(s.low, s.seq_, units)
    ensures var s' := Note(s, [Check(t.answer)]);
      InStep(p, if t.answer.Unanswered? then LosePath(s', t.saveOk) else Judge(p, s', t, units))
  {
    hide Scan;
    var s' := Note(s, [Check(t.answer)]);
    ScanNote(p, s, Check(t.answer));
    if t.answer.Unanswered? {
      LosePathInStep(p, s', t.saveOk);
    } else {
      JudgeInStep(p, s', t, units, s.low);
    }
  }

  lemma OpenInStep(p: Params, stream: Record, stored: Option<Record>)
    ensures InStep(p, Open(stream, stored))
  {
    assert Open(stream, stored).log[..0] == [];
  }

  lemma OtherInStep(p: Params, s: Session, x: Input)
    requires InStep(p, s) && (s.closed.Some? || !x.Tick?)
    ensures InStep(p, Step(p, s, x))
  {
    hide Scan;
  }

  lemma {:induction false} DriveInStep(p: Params, stream: Record, stored: Option<Record>, ins: seq<Input>)
    ensures InStep(p, Drive(p, Open(stream, stored), ins))
  {
    hide Scan, DoTick;
    var s0 := Open(stream, stored);
    if ins == [] {
      OpenInStep(p, stream, stored);
    } else {
      hide InStep;
      var init, x := ins[..|ins| - 1], ins[|ins| - 1];
      DriveInStep(p, stream, stored, init);
      var s := Drive(p, s0, init);
      if x.Tick? && s.closed.None? {
        TickInStep(p, s, x.t);
      } else {
        OtherInStep(p, s, x);
      }
    }
  }

  /** Where the settlement leaves the log: wherever it is, the final event may follow. */
  lemma SettleInStep(p: Params, s: Session, f: FinalInput)
    requires InStep(p, s) && s.closed.Some?
    ensures Next(p, Scan(p, Settle(s, f).log), Emit(Ended(s.closed.value, f.encoded / 10))) == Over
  {
    hide Scan;
    if f.encoded > s.lastDebited {
      AttemptScan(p, s, f.encoded, f.debitOk, f.bumpOk);
      if f.debitOk {
        SettlePaid(p, s, f);
      } else {
        assert Settle(s, f).log == Attempt(s, f.encoded, f.debitOk, f.bumpOk).log;
      }
    }
  }

  lemma SettlePaid(p: Params, s: Session, f: FinalInput)
    requires InStep(p, s) && s.closed.Some? && f.encoded > s.lastDebited && f.debitOk
    ensures var q := Scan(p, Settle(s, f).log);
      q.LastReported? && q.failed == (s.closed == Some(PaymentFailed)) && q.flag == (s.closed == Some(InsufficientBalance))
  {
    hide Scan;
    var s1 := Attempt(s, f.encoded, f.debitOk, f.bumpOk);
    var units, reason := CeilUnits(f.encoded - s.lastDebited), s.closed.value;
    AttemptScan(p, s, f.encoded, f.debitOk, f.bumpOk);
    assert Settle(s, f).log == Note(s1, [Emit(UsageTick(s1.seq_, units, 0, reason == InsufficientBalance))]).log;
    ReportScan(p, s1, units, reason);
  }

  lemma ReportScan(p: Params, s: Session, units: nat, reason: Reason)
    requires var q := Scan(p, s.log);
      if reason.PaymentFailed? then q == LastDebited(s.seq_, units) else q == Debited(s.low, s.seq_, units)
    ensures var q := Scan(p, Note(s, [Emit(UsageTick(s.seq_, units, 0, reason == InsufficientBalance))]).log);
      q.LastReported? && q.failed == reason.PaymentFailed? && q.flag == (reason == InsufficientBalance)
  {
    hide Scan;
    ScanNote(p, s, Emit(UsageTick(s.seq_, units, 0, reason == InsufficientBalance)));
  }

  /** Trace shape: the log of every session that left its loop is a word of the protocol up to the close with
      the broker, and a complete one exactly when the wait for the mirror is over. */
  lemma TraceShape(p: Params, stream: Record, stored: Option<Record>, ins: seq<Input>, f: FinalInput)
    requires Drive(p, Open(stream, stored), ins).closed.Some?
    ensures var s := Drive(p, Open(stream, stored), ins);
      Scan(p, Finish(p, s, f).log) == if Drained(p, s, f) then Released else BrokerClosed
  {
    hide Scan, Drive;
    var s := Drive(p, Open(stream, stored), ins);
    DriveInStep(p, stream, stored, ins);
    SettleInStep(p, s, f);
    ClosingScan(p, Settle(s, f), Ended(s.closed.value, f.encoded / 10), f.encoded);
  }

  lemma ClosingScan(p: Params, s: Session, ended: Event, tenths: nat)
    requires Next(p, Scan(p, s.log), Emit(ended)) == Over
    ensures Scan(p, s.log + [Emit(ended), CloseSession]) == BrokerClosed
    ensures Scan(p, s.log + [Emit(ended), CloseSession] + Parting(p, tenths)) == Released
  {
    var recording := RecordingReady(tenths);
    hide Scan;
    var s1 := Note(s, [Emit(ended)]);
    var s2 := Note(s1, [CloseSession]);
    ScanNote(p, s, Emit(ended));
    ScanNote(p, s1, CloseSession);
    assert s.log + [Emit(ended), CloseSession] == s2.log;
    if p.Records() {
      var s3 := Note(s2, [Emit(recording)]);
      ScanNote(p, s2, Emit(recording));
      ScanNote(p, s3, ReleaseLease);
      assert s2.log + ([Emit(recording)] + [ReleaseLease]) == Note(s3, [ReleaseLease]).log;
    } else {
      ScanNote(p, s2, ReleaseLease);
      assert s2.log + ([] + [ReleaseLease]) == Note(s2, [ReleaseLease]).log;
    }
  }

  // ---- Consequences that hold of every word of the protocol ----

  ghost predicate AfterClose(q: State) {
    q.BrokerClosed? || q.RecordingSent? || q.Released?
  }

  /** `log` closes the session with the broker once, at `k`, and debits nothing after that. */
  ghost predicate ClosesOnceAt(log: seq<Action>, k: nat) {
    && k < |log| && log[k] == CloseSession
    && (forall j | 0 <= j < |log| && log[j] == CloseSession :: j == k)
    && (forall j | k < j < |log| :: !log[j].Debit?)
  }

  /** `log` sends its final event once, at `k`. */
  ghost predicate EndsOnceAt(log: seq<Action>, k: nat) {
    && k < |log| && log[k].Emit? && log[k].event.Ended?
    && (forall j | 0 <= j < |log| && log[j].Emit? && log[j].event.Ended? :: j == k)
  }

  lemma {:induction false} WordCloses(p: Params, log: seq<Action>)
    requires Scan(p, log) != Reject
    ensures !AfterClose(Scan(p, log)) ==> CloseSession !in log
    ensures AfterClose(Scan(p, log)) ==> exists k: nat :: ClosesOnceAt(log, k)
  {
    hide Next;
    if log != [] {
      var init, a := log[..|log| - 1], log[|log| - 1];
      assert log == init + [a];
      NextCloses(p, Scan(p, init), a);
      WordCloses(p, init);
      if AfterClose(Scan(p, init)) {
        var k: nat :| ClosesOnceAt(init, k);
        assert ClosesOnceAt(log, k);
      } else if a == CloseSession {
        assert ClosesOnceAt(log, |init|);
      }
    }
  }

  lemma NextCloses(p: Params, q: State, a: Action)
    requires Next(p, q, a) != Reject
    ensures q != Reject
    ensures AfterClose(Next(p, q, a)) <==> AfterClose(q) || a == CloseSession
    ensures AfterClose(q) ==> a != CloseSession && !a.Debit?
    ensures var over, over' := q.Over? || AfterClose(q), Next(p, q, a).Over? || AfterClose(Next(p, q, a));
      && (over' <==> over || (a.Emit? && a.event.Ended?))
      && (over ==> !(a.Emit? && a.event.Ended?))
  {
  }

  lemma {:induction false} WordEnds(p: Params, log: seq<Action>)
    requires Scan(p, log) != Reject
    ensures var q := Scan(p, log);
      if q.Over? || AfterClose(q) then exists k: nat :: EndsOnceAt(log, k)
      else forall j | 0 <= j < |log| :: !(log[j].Emit? && log[j].event.Ended?)
  {
    hide Next;
    if log != [] {
      var init, a := log[..|log| - 1], log[|log| - 1];
      assert log == init + [a];
      NextCloses(p, Scan(p, init), a);
      WordEnds(p, init);
      var q := Scan(p, init);
      if q.Over? || AfterClose(q) {
        var k: nat :| EndsOnceAt(init, k);
        assert EndsOnceAt(log, k);
      } else if a.Emit? && a.event.Ended? {
        assert EndsOnceAt(log, |init|);
      }
    }
  }

  /** `log` gives the GPU lease back once, as its last act. */
  ghost predicate ReleasesLast(log: seq<Action>) {
    |log| > 0 && forall j | 0 <= j < |log| :: log[j] == ReleaseLease <==> j == |log| - 1
  }

  lemma {:induction false} WordReleases(p: Params, log: seq<Action>)
    requires Scan(p, log) != Reject
    ensures if Scan(p, log).Released? then ReleasesLast(log) else ReleaseLease !in log
  {
    hide Next;
    if log != [] {
      var init, a := log[..|log| - 1], log[|log| - 1];
      assert log == init + [a];
      NextReleases(p, Scan(p, init), a);
      WordReleases(p, init);
    }
  }

  lemma NextReleases(p: Params, q: State, a: Action)
    requires Next(p, q, a) != Reject
    ensures q != Reject && !q.Released?
    ensures Next(p, q, a).Released? <==> a == ReleaseLease
  {
  }

  /** The balance announcements of a log, `true` for low. */
  function Announcements(log: seq<Action>): seq<bool> {
    if log == [] then []
    else
      var rest, a := Announcements(log[..|log| - 1]), log[|log| - 1];
      if a.Emit? && a.event.BalanceLow? then rest + [true]
      else if a.Emit? && a.event.BalanceRefilled? then rest + [false]
      else rest
  }

  ghost predicate Alternating(bs: seq<bool>) {
    forall k | 0 <= k < |bs| :: bs[k] <==> k % 2 == 0
  }

  /** Whether the protocol is in a low-balance stretch, where the automaton remembers it. */
  function LowIn(q: State): Option<bool> {
    match q
    case Start => Some(false)
    case Idle(low) => Some(low)
    case Debited(low, _, _) => Some(low)
    case Refused(low) => Some(low)
    case Answered(low, _, _, _) => Some(low)
    case Unreported(low) => Some(low)
    case Announce(low) => Some(!low)
    case _ => None
  }

  lemma {:induction false} WordAlternates(p: Params, log: seq<Action>)
    requires Scan(p, log) != Reject
    ensures Alternating(Announcements(log))
    ensures LowIn(Scan(p, log)).Some? ==> (LowIn(Scan(p, log)).value <==> |Announcements(log)| % 2 == 1)
  {
    hide Next, LowIn;
    if log == [] {
      StartIsAmple();
    } else {
      var init, a := log[..|log| - 1], log[|log| - 1];
      NextAlternates(p, Scan(p, init), a);
      WordAlternates(p, init);
    }
  }

  lemma StartIsAmple()
    ensures LowIn(Start) == Some(false)
  {
  }

  lemma NextAlternates(p: Params, q: State, a: Action)
    requires Next(p, q, a) != Reject
    ensures var q' := Next(p, q, a);
      && q != Reject
      && (a.Emit? && a.event.BalanceLow? ==> LowIn(q) == Some(false) && LowIn(q') == Some(true))
      && (a.Emit? && a.event.BalanceRefilled? ==> LowIn(q) == Some(true) && LowIn(q') == Some(false))
      && (!(a.Emit? && (a.event.BalanceLow? || a.event.BalanceRefilled?)) ==> LowIn(q').None? || LowIn(q') == LowIn(q))
  {
  }

  /** What the gateway can rely on for every session that left its loop: one final event, one close with the
      broker and no debit after it, low and refilled announcements in strict alternation from low. The GPU
      lease is given back once, as the last act, if there is no mirror or the context was cancelled, and is
      still held otherwise. */
  lemma TraceGuarantees(p: Params, stream: Record, stored: Option<Record>, ins: seq<Input>, f: FinalInput)
    requires Drive(p, Open(stream, stored), ins).closed.Some?
    ensures var log := Finish(p, Drive(p, Open(stream, stored), ins), f).log;
      && (exists k: nat :: EndsOnceAt(log, k))
      && (exists k: nat :: ClosesOnceAt(log, k))
      && Alternating(Announcements(log))
      && (if Drained(p, Drive(p, Open(stream, stored), ins), f) then ReleasesLast(log) else ReleaseLease !in log)
  {
    hide Scan, Drive, Finish;
    TraceShape(p, stream, stored, ins, f);
    var log := Finish(p, Drive(p, Open(stream, stored), ins), f).log;
    WordEnds(p, log);
    WordCloses(p, log);
    WordAlternates(p, log);
    WordReleases(p, log);
  }

  /** What the final messages say: the reason the session closed for and its whole encoded seconds, and,
      when it was recorded and the mirror is done, its length. There is one final event, so this is it. */
  lemma FinalMessages(p: Params, s: Session, f: FinalInput)
    requires s.closed.Some?
    ensures var log := Finish(p, s, f).log;
      && Emit(Ended(s.closed.value, f.encoded / 10)) in log
      && (p.recording && p.mirror && Drained(p, s, f) ==> Emit(RecordingReady(f.encoded)) in log)
  {
    var log, n := Finish(p, s, f).log, |Settle(s, f).log|;
    hide Settle, Terminate;
    assert log[n] == Emit(Ended(s.closed.value, f.encoded / 10));
    if p.Records() && Drained(p, s, f) {
      assert log[n + 2] == Emit(RecordingReady(f.encoded));
    }
  }

  // ---- The lease after the close ----

  /** The context was cancelled while the session's loop was running. */
  ghost predicate CancelledInTime(p: Params, s0: Session, ins: seq<Input>) {
    exists k :: 0 <= k < |ins| && ins[k] == Cancelled && Drive(p, s0, ins[..k]).closed.None?
  }

  lemma TickKeepsContext(p: Params, s: Session, t: TickInput)
    ensures DoTick(p, s, t).cancelled == s.cancelled
  {
  }

  lemma {:induction false} CancelSeen(p: Params, stream: Record, stored: Option<Record>, ins: seq<Input>)
    ensures Drive(p, Open(stream, stored), ins).cancelled <==> CancelledInTime(p, Open(stream, stored), ins)
  {
    hide DoTick;
    var s0 := Open(stream, stored);
    if ins != [] {
      var n, init := |ins| - 1, ins[..|ins| - 1];
      CancelSeen(p, stream, stored, init);
      assert forall k | 0 <= k <= n :: init[..k] == ins[..k];
      if ins[n].Tick? { TickKeepsContext(p, Drive(p, s0, init), ins[n].t); }
      if CancelledInTime(p, s0, init) {
        var k :| 0 <= k < |init| && init[k] == Cancelled && Drive(p, s0, init[..k]).closed.None?;
        assert ins[k] == Cancelled && Drive(p, s0, ins[..k]).closed.None?;
      }
      if CancelledInTime(p, s0, ins) {
        var k :| 0 <= k < |ins| && ins[k] == Cancelled && Drive(p, s0, ins[..k]).closed.None?;
        assert k < n ==> init[k] == Cancelled && Drive(p, s0, init[..k]).closed.None?;
      }
    }
  }

  /** Lease discipline of a live session, both ways: after the close the lease is back if and only if there
      is no mirror, or the context was cancelled before the loop was left or has been since. */
  lemma LeaseReleased(p: Params, stream: Record, stored: Option<Record>, ins: seq<Input>, f: FinalInput)
    requires Drive(p, Open(stream, stored), ins).closed.Some?
    ensures ReleaseLease in Finish(p, Drive(p, Open(stream, stored), ins), f).log <==>
            !p.mirror || CancelledInTime(p, Open(stream, stored), ins) || f.cancelled
  {
    hide Drive, Finish, Scan, CancelledInTime;
    CancelSeen(p, stream, stored, ins);
    TraceGuarantees(p, stream, stored, ins, f);
    var log := Finish(p, Drive(p, Open(stream, stored), ins), f).log;
    assert ReleasesLast(log) ==> log[|log| - 1] == ReleaseLease;
  }

  predicate IsRecording(a: Action) {
    a.Emit? && a.event.RecordingReady?
  }

  /** The protocol has sent its recording event. */
  ghost predicate Sent(p: Params, q: State) {
    q.RecordingSent? || (q.Released? && p.Records())
  }

  lemma NextRecords(p: Params, q: State, a: Action)
    requires Next(p, q, a) != Reject && (q.RecordingSent? ==> p.Records())
    ensures q != Reject
    ensures Sent(p, Next(p, q, a)) <==> Sent(p, q) || IsRecording(a)
    ensures Next(p, q, a).RecordingSent? ==> p.Records()
  {
  }

  lemma {:induction false} WordRecords(p: Params, log: seq<Action>)
    requires Scan(p, log) != Reject
    ensures Sent(p, Scan(p, log)) <==> exists j :: 0 <= j < |log| && IsRecording(log[j])
    ensures Scan(p, log).RecordingSent? ==> p.Records()
  {
    hide Next, Sent;
    if log == [] {
      NothingSent(p);
    } else {
      var init, a := log[..|log| - 1], log[|log| - 1];
      assert log == init + [a];
      RejectStays(p, Scan(p, init), a);
      WordRecords(p, init);
      NextRecords(p, Scan(p, init), a);
      if j :| 0 <= j < |init| && IsRecording(init[j]) { assert log[j] == init[j]; }
      if j :| 0 <= j < |log| && IsRecording(log[j]) { assert j < |init| ==> init[j] == log[j]; }
    }
  }

  lemma NothingSent(p: Params)
    ensures !Sent(p, Start)
  {
  }

  lemma RejectStays(p: Params, q: State, a: Action)
    requires Next(p, q, a) != Reject
    ensures q != Reject
  {
  }

  /** The recording event, both ways: a session that left its loop has sent it if and only if the stream is to
      be recorded, there is a mirror, and the context was cancelled before the loop was left or has been since. */
  lemma RecordingSentWhen(p: Params, stream: Record, stored: Option<Record>, ins: seq<Input>, f: FinalInput)
    requires Drive(p, Open(stream, stored), ins).closed.Some?
    ensures var log := Finish(p, Drive(p, Open(stream, stored), ins), f).log;
      (exists j :: 0 <= j < |log| && IsRecording(log[j])) <==>
      p.recording && p.mirror && (CancelledInTime(p, Open(stream, stored), ins) || f.cancelled)
  {
    hide Drive, Finish, Scan, CancelledInTime;
    CancelSeen(p, stream, stored, ins);
    TraceShape(p, stream, stored, ins, f);
    WordRecords(p, Finish(p, Drive(p, Open(stream, stored), ins), f).log);
  }

  /** Two ticks that find too little: one that opens the grace period, and one after its end. */
  function StarvedInputs(p: Params, encoded: nat, at: int): seq<Input> {
    [Tick(TickInput(encoded, true, Insufficient, at, at, true, true)),
     Tick(TickInput(encoded + 1, true, Insufficient, at + p.grace + 1, at + p.grace + 1, true, true))]
  }

  /** So the lease can outlast the session: with a mirror, a session closed for lack of balance under a
      broadcaster who stays connected has ended and is closed with the broker, and holds its lease. */
  lemma LeaseOutlastsSession(p: Params, stored: Option<Record>, encoded: nat, at: int, f: FinalInput)
    requires p.mirror && p.grace >= 0 && encoded > 0 && !f.cancelled
    ensures var s := Drive(p, Open(AcceptedRecord, stored), StarvedInputs(p, encoded, at));
      && s.closed == Some(InsufficientBalance)
      && CloseSession in Finish(p, s, f).log
      && ReleaseLease !in Finish(p, s, f).log
  {
    var ins, s0 := StarvedInputs(p, encoded, at), Open(AcceptedRecord, stored);
    StarvedCloses(p, stored, encoded, at);
    LeaseReleased(p, AcceptedRecord, stored, ins, f);
    TraceGuarantees(p, AcceptedRecord, stored, ins, f);
  }

  lemma StarvedCloses(p: Params, stored: Option<Record>, encoded: nat, at: int)
    requires p.grace >= 0 && encoded > 0
    ensures Drive(p, Open(AcceptedRecord, stored), StarvedInputs(p, encoded, at)).closed == Some(InsufficientBalance)
  {
    hide DoTick;
    var ins, s0 := StarvedInputs(p, encoded, at), Open(AcceptedRecord, stored);
    assert ins[..1][..0] == [] && ins[..1] == ins[..|ins| - 1];
    var s1 := Drive(p, s0, ins[..1]);
    assert Drive(p, s0, []) == s0 && s1 == Step(p, s0, ins[0]) && Drive(p, s0, ins) == Step(p, s1, ins[1]);
    TickGrace(p, s0, ins[0].t);
    TickGrace(p, s1, ins[1].t);
  }

  // ---- The reason a session ends for ----

  /** The reasons other goroutines recorded, in order. */
  function Recordings(ins: seq<Input>): seq<Reason> {
    if ins == [] then []
    else
      var rest := Recordings(ins[..|ins| - 1]);
      if ins[|ins| - 1].Recorded? then rest + [ins[|ins| - 1].cause.Reason()] else rest
  }

  lemma TickKeepsReason(p: Params, s: Session, t: TickInput)
    ensures DoTick(p, s, t).reason == s.reason
  {
  }

  lemma {:induction false} OpenReason(p: Params, stream: Record, stored: Option<Record>, ins: seq<Input>)
    requires Drive(p, Open(stream, stored), ins).closed.None?
    ensures Drive(p, Open(stream, stored), ins).reason == SetAll(Graceful, Recordings(ins))
  {
    hide DoTick;
    if ins != [] {
      var init, x := ins[..|ins| - 1], ins[|ins| - 1];
      OpenReason(p, stream, stored, init);
      if x.Recorded? {
        var rs := Recordings(init);
        assert (rs + [x.cause.Reason()])[..|rs|] == rs;
      } else if x.Tick? {
        TickKeepsReason(p, Drive(p, Open(stream, stored), init), x.t);
      }
    }
  }

  lemma {:induction false} RecordingsFromOutside(ins: seq<Input>)
    ensures forall r | r in Recordings(ins) :: FromOutside(r)
  {
    if ins != [] { RecordingsFromOutside(ins[..|ins| - 1]); }
  }

  /** A session that notices its cancellation ends for worker failure if one was recorded, else for an
      operator's stop if one was, else gracefully, whatever the order of the recordings. */
  lemma CancelReason(p: Params, stream: Record, stored: Option<Record>, ins: seq<Input>)
    requires var s := Drive(p, Open(stream, stored), ins); s.closed.None? && s.cancelled
    ensures var c := Drive(p, Open(stream, stored), ins + [Noticed]).closed;
      c == Some(if WorkerFailed in Recordings(ins) then WorkerFailed
                else if AdminStop in Recordings(ins) then AdminStop
                else Graceful)
  {
    RecordingsFromOutside(ins);
    DriveSnoc(p, Open(stream, stored), ins, Noticed);
    OpenReason(p, stream, stored, ins);
    SetAllIsHighest(Graceful, Recordings(ins));
  }
}
