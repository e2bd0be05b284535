/** The durable record of a Pattern B session against the session's own variables, with a store whose
    writes may fail one by one. The session is the only writer of its record. */
module PatternBStore {
  import opened LiveTypes
  import opened PatternB
  import opened PatternBGrace

  /** The record says that a grace period runs until `deadline`, or that none runs. */
  ghost predicate Shows(r: Record, deadline: Option<int>) {
    && r.lowBalance == deadline.Some?
    && r.graceUntil == deadline
    && r.phase == (if deadline.Some? then LowBalance else Streaming)
    && r.errorCode.Unset?
  }

  /** The record tells whether the balance is low, until when the grace period runs, and the phase. */
  ghost predicate Mirrors(s: Session, r: Record) {
    && r.lowBalance == s.low
    && r.graceUntil == s.deadline
    && r.phase == (if s.low then LowBalance else Streaming)
    && r.errorCode.Unset?
  }

  /** Every debit attempt of the open session left its mark in the store. */
  ghost predicate BumpsLanded(ins: seq<Input>) {
    forall k: nat | NewHigh(ins, k) :: ins[k].t.bumpOk
  }

  // ---- Which ticks write the record ----

  /** Tick `k` turns the balance: a short check outside a grace period, or an ample one inside. Only such
      ticks save the record. */
  ghost predicate Turns(ins: seq<Input>, k: nat)
    ensures Turns(ins, k) ==> k < |ins| && ins[k].Tick?
  {
    (Short(ins, k) && Recovered(ins, k)) || (Ample(ins, k) && !Recovered(ins, k))
  }

  ghost predicate TurnSaved(ins: seq<Input>, k: nat) {
    Turns(ins, k) && ins[k].t.saveOk
  }

  /** The deadline that turn `k` sets or clears. */
  ghost function TurnDeadline(p: Params, ins: seq<Input>, k: nat): Option<int>
    requires Turns(ins, k)
  {
    if Short(ins, k) then Some(DeadlineOf(p, ins, k)) else None
  }

  ghost predicate LastSaved(ins: seq<Input>, k: nat) {
    TurnSaved(ins, k) && forall j: nat | k < j :: !TurnSaved(ins, j)
  }

  /** `d` is what the last saved turn wrote, or nothing if no turn was saved. */
  ghost predicate Written(p: Params, ins: seq<Input>, d: Option<int>) {
    if forall k: nat :: !TurnSaved(ins, k) then d == None
    else exists k: nat :: LastSaved(ins, k) && d == TurnDeadline(p, ins, k)
  }

  lemma ExtendTurns(p: Params, ins: seq<Input>, x: Input)
    ensures forall k: nat | k < |ins| :: Turns(ins + [x], k) == Turns(ins, k)
    ensures forall k: nat | k < |ins| :: TurnSaved(ins + [x], k) == TurnSaved(ins, k)
    ensures forall k: nat | k < |ins| && Turns(ins, k) :: TurnDeadline(p, ins + [x], k) == TurnDeadline(p, ins, k)
  {
    hide NewHigh, Recovered;
    Extend(ins, x);
    assert forall k: nat | k < |ins| :: (ins + [x])[k] == ins[k];
    forall k: nat | k < |ins| ensures Turns(ins + [x], k) == Turns(ins, k) {
      ExtendRecovered(ins, x, k);
    }
  }

  /** A turn that is saved is the last one saved; any other input leaves the last one what it was. */
  lemma WrittenSnoc(p: Params, ins: seq<Input>, x: Input, d: Option<int>)
    requires Written(p, ins, d)
    ensures if TurnSaved(ins + [x], |ins|) then Written(p, ins + [x], TurnDeadline(p, ins + [x], |ins|))
            else Written(p, ins + [x], d)
  {
    hide Turns, TurnDeadline;
    var ins', n := ins + [x], |ins|;
    ExtendTurns(p, ins, x);
    if TurnSaved(ins', n) {
      assert LastSaved(ins', n);
    } else if k: nat :| LastSaved(ins, k) && d == TurnDeadline(p, ins, k) {
      assert LastSaved(ins', k);
    } else {
      assert forall k: nat :: !TurnSaved(ins', k);
    }
  }

  lemma NothingWritten(p: Params)
    ensures Written(p, [], None)
  {
  }

  // ---- The effect of a tick on the two copies ----

  lemma JudgeRecords(p: Params, s: Session, t: TickInput, units: nat)
    requires s.closed.None? && Mirrors(s, s.stream) && (s.low <==> s.deadline.Some?) && !t.answer.Unanswered?
    ensures var s' := Judge(p, s, t, units);
      && Mirrors(s', s'.stream) && (s'.low <==> s'.deadline.Some?)
      && s'.seq_ == s.seq_
      && (if s.stored.Some? && t.saveOk && s.low == t.answer.Sufficient?
          then s'.stored.Some? && Shows(s'.stored.value, s'.deadline) && s'.stored.value.debitSeq == s.stored.value.debitSeq
          else s'.stored == s.stored)
  {
  }

  /** A checked tick that keeps the session open counts in both copies, and saves the record exactly when it
      turns the balance. */
  lemma TickRecords(p: Params, s: Session, t: TickInput)
    requires s.closed.None? && Mirrors(s, s.stream) && (s.low <==> s.deadline.Some?)
    requires t.encoded > s.lastDebited && DoTick(p, s, t).closed.None?
    ensures var s' := DoTick(p, s, t);
      && Mirrors(s', s'.stream) && (s'.low <==> s'.deadline.Some?)
      && s'.seq_ == s.seq_ + 1
      && s'.stored.Some? == s.stored.Some?
      && (s.stored.Some? ==>
            var r, r' := s.stored.value, s'.stored.value;
            && r'.debitSeq == r.debitSeq + (if t.bumpOk then 1 else 0)
            && (if t.saveOk && s.low == t.answer.Sufficient? then Shows(r', s'.deadline)
                else r' == r.(debitSeq := r'.debitSeq)))
  {
    hide Judge, Mirrors;
    LostClosed(s, t);
    var s2 := Note(Attempt(s, t.encoded, t.debitOk, t.bumpOk).(lastDebited := t.encoded), [Check(t.answer)]);
    assert Mirrors(s2, s2.stream) by { MirrorsKept(s, s2); }
    JudgeRecords(p, s2, t, CeilUnits(t.encoded - s.lastDebited));
  }

  lemma MirrorsKept(s: Session, s': Session)
    requires Mirrors(s, s.stream) && s'.stream == s.stream && s'.low == s.low && s'.deadline == s.deadline
    ensures Mirrors(s', s'.stream)
  {
  }

  lemma LostClosed(s: Session, t: TickInput)
    ensures LosePath(s, t.saveOk).closed.Some?
  {
  }

  // ---- While open ----

  /** What holds of an open session's two copies of its record. */
  ghost predicate Durable(p: Params, ins: seq<Input>, s: Session, stored: Option<Record>) {
    && Mirrors(s, s.stream)
    && (s.low <==> s.deadline.Some?)
    && s.stored.Some? == stored.Some?
    && (s.stored.Some? ==>
          && s.stored.value.debitSeq <= s.seq_
          && (s.stored.value.debitSeq == s.seq_ <==> BumpsLanded(ins))
          && exists d: Option<int> :: Written(p, ins, d) && Shows(s.stored.value, d))
  }

  lemma BumpsSnoc(ins: seq<Input>, x: Input)
    ensures BumpsLanded(ins + [x]) <==> BumpsLanded(ins) && (NewHigh(ins + [x], |ins|) ==> x.t.bumpOk)
  {
    hide NewHigh;
    var ins' := ins + [x];
    Extend(ins, x);
    assert ins'[|ins|] == x;
    assert forall k: nat | k < |ins| :: ins'[k] == ins[k];
    if BumpsLanded(ins') {
      forall k: nat | NewHigh(ins, k) ensures ins[k].t.bumpOk { assert NewHigh(ins', k); }
    }
  }

  /** The last tick turned the balance exactly when its answer differs from the session's state. */
  lemma TurnsNow(p: Params, ins: seq<Input>, s: Session, t: TickInput)
    requires Tracks(p, ins, s) && t.encoded > s.lastDebited && !t.answer.Unanswered?
    ensures var ins' := ins + [Tick(t)];
      && (Turns(ins', |ins|) <==> s.low == t.answer.Sufficient?)
      && (Turns(ins', |ins|) ==> TurnDeadline(p, ins', |ins|) == if t.answer.Sufficient? then None else Some(t.armAt + p.grace))
  {
    hide Recovered, InTime;
    HighIsBillable(ins, s.lastDebited, t);
    ExtendRecovered(ins, Tick(t), |ins|);
    if s.low {
      var i: nat :| LowSince(ins, i) && s.deadline == Some(DeadlineOf(p, ins, i)) && InTime(p, ins, i);
      LowSinceUnique(ins, i, i);
    }
  }

  lemma TracksPeak(p: Params, ins: seq<Input>, s: Session)
    requires Tracks(p, ins, s)
    ensures Peak(ins, s.lastDebited)
  {
  }

  lemma ShowsKept(r: Record, n: nat, d: Option<int>)
    requires Shows(r, d)
    ensures Shows(r.(debitSeq := n), d)
  {
  }

  /** The stored record keeps showing what the last saved turn wrote. */
  lemma TickWritten(p: Params, ins: seq<Input>, s: Session, t: TickInput, d: Option<int>) returns (d': Option<int>)
    requires s.closed.None? && Mirrors(s, s.stream) && (s.low <==> s.deadline.Some?) && Tracks(p, ins, s)
    requires s.stored.Some? && Written(p, ins, d) && Shows(s.stored.value, d)
    requires DoTick(p, s, t).closed.None?
    ensures DoTick(p, s, t).stored.Some?
    ensures Written(p, ins + [Tick(t)], d') && Shows(DoTick(p, s, t).stored.value, d')
  {
    hide NewHigh, Recovered, InTime, Peak, Written, DoTick, Shows, Tracks, TurnDeadline;
    var ins', s', n := ins + [Tick(t)], DoTick(p, s, t), |ins|;
    TracksPeak(p, ins, s);
    HighIsBillable(ins, s.lastDebited, t);
    TickGrace(p, s, t);
    WrittenSnoc(p, ins, Tick(t), d);
    assert ins'[n] == Tick(t);
    if t.encoded > s.lastDebited {
      TickRecords(p, s, t);
      TurnsNow(p, ins, s, t);
      d' := if TurnSaved(ins', n) then TurnDeadline(p, ins', n) else d;
      if !TurnSaved(ins', n) {
        ShowsKept(s.stored.value, s'.stored.value.debitSeq, d);
      }
    } else {
      d' := d;
    }
  }

  lemma TickDurable(p: Params, ins: seq<Input>, s: Session, t: TickInput, stored: Option<Record>)
    requires s.closed.None? && Durable(p, ins, s, stored) && Tracks(p, ins, s)
    requires DoTick(p, s, t).closed.None?
    ensures Durable(p, ins + [Tick(t)], DoTick(p, s, t), stored)
  {
    hide BumpsLanded, NewHigh, Peak, Written, Tracks, Shows;
    TracksPeak(p, ins, s);
    HighIsBillable(ins, s.lastDebited, t);
    BumpsSnoc(ins, Tick(t));
    if s.stored.Some? {
      var d: Option<int> :| Written(p, ins, d) && Shows(s.stored.value, d);
      var d' := TickWritten(p, ins, s, t, d);
    }
    if t.encoded > s.lastDebited {
      hide DoTick;
      TickRecords(p, s, t);
    }
  }

  lemma OtherDurable(p: Params, ins: seq<Input>, s: Session, x: Input, stored: Option<Record>)
    requires s.closed.None? && Durable(p, ins, s, stored) && !x.Tick?
    ensures Durable(p, ins + [x], Step(p, s, x), stored)
  {
    hide Written, Shows, BumpsLanded;
    BumpsSnoc(ins, x);
    if s.stored.Some? {
      var d: Option<int> :| Written(p, ins, d) && Shows(s.stored.value, d);
      WrittenSnoc(p, ins, x, d);
    }
  }

  /** Durable refinement, while open: from the record `Accept` writes, the copy in memory always agrees
      with the session; the stored number never runs ahead of the session's and equals it exactly when
      every increment landed; the stored copy shows what the last saved turn of the balance wrote. */
  lemma {:induction false} DurableWhileOpen(p: Params, stored: Option<Record>, ins: seq<Input>)
    requires stored.Some? ==> stored.value == AcceptedRecord
    requires Drive(p, Open(AcceptedRecord, stored), ins).closed.None?
    ensures Durable(p, ins, Drive(p, Open(AcceptedRecord, stored), ins), stored)
  {
    hide DoTick;
    var s0 := Open(AcceptedRecord, stored);
    if ins == [] {
      NothingWritten(p);
      if stored.Some? { assert Written(p, ins, None) && Shows(stored.value, None); }
    } else {
      hide Durable;
      var init, x := ins[..|ins| - 1], ins[|ins| - 1];
      assert ins == init + [x];
      var s := Drive(p, s0, init);
      DurableWhileOpen(p, stored, init);
      if x.Tick? {
        OpenTracks(p, AcceptedRecord, stored, init);
        TickDurable(p, init, s, x.t, stored);
      } else {
        OtherDurable(p, init, s, x, stored);
      }
    }
  }

  lemma WrittenUnique(p: Params, ins: seq<Input>, d: Option<int>, d': Option<int>)
    requires Written(p, ins, d) && Written(p, ins, d')
    ensures d == d'
  {
    hide Turns, TurnDeadline;
    if k: nat :| TurnSaved(ins, k) {
      var a: nat :| LastSaved(ins, a) && d == TurnDeadline(p, ins, a);
      var b: nat :| LastSaved(ins, b) && d' == TurnDeadline(p, ins, b);
      assert a == b;
    }
  }

  /** The stored copy agrees with an open session if and only if the last saved turn, or the accepted record
      if no turn was saved, says of the grace period what is the case now. Lost saves of turns that cancel
      out do no harm. */
  lemma StoredAgreesWhen(p: Params, stored: Option<Record>, ins: seq<Input>, d: Option<int>)
    requires stored == Some(AcceptedRecord)
    requires Drive(p, Open(AcceptedRecord, stored), ins).closed.None? && Written(p, ins, d)
    ensures var s := Drive(p, Open(AcceptedRecord, stored), ins);
      s.stored.Some? && (Mirrors(s, s.stored.value) <==> d == s.deadline)
  {
    hide Drive, Written;
    var s := Drive(p, Open(AcceptedRecord, stored), ins);
    DurableWhileOpen(p, stored, ins);
    var d0: Option<int> :| Written(p, ins, d0) && Shows(s.stored.value, d0);
    WrittenUnique(p, ins, d, d0);
  }

  /** In particular it agrees after a turn that was saved, whatever was lost before. */
  lemma StoredAgreesAfterSavedTurn(p: Params, stored: Option<Record>, ins: seq<Input>, t: TickInput)
    requires stored == Some(AcceptedRecord)
    requires Drive(p, Open(AcceptedRecord, stored), ins + [Tick(t)]).closed.None?
    requires TurnSaved(ins + [Tick(t)], |ins|)
    ensures var s := Drive(p, Open(AcceptedRecord, stored), ins + [Tick(t)]);
      s.stored.Some? && Mirrors(s, s.stored.value)
  {
    var s0, ins' := Open(AcceptedRecord, stored), ins + [Tick(t)];
    var s := Drive(p, s0, ins);
    DriveSnoc(p, s0, ins, Tick(t));
    OpenTracks(p, AcceptedRecord, stored, ins);
    DurableWhileOpen(p, stored, ins);
    assert ins'[|ins|] == Tick(t) && s.closed.None?;
    hide Drive, DoTick, Tracks, NewHigh, Recovered, InTime, Peak;
    TracksPeak(p, ins, s);
    HighIsBillable(ins, s.lastDebited, t);
    TickGrace(p, s, t);
    TurnsNow(p, ins, s, t);
    var d: Option<int> :| Written(p, ins, d) && Shows(s.stored.value, d);
    WrittenSnoc(p, ins, Tick(t), d);
    StoredAgreesWhen(p, stored, ins', TurnDeadline(p, ins', |ins|));
  }

  /** A lost payment path is told in both copies, in the store if the save landed. */
  lemma PaymentLossRecorded(p: Params, stored: Option<Record>, ins: seq<Input>, t: TickInput)
    requires stored.Some? ==> stored.value == AcceptedRecord
    requires Drive(p, Open(AcceptedRecord, stored), ins).closed.None?
    requires Drive(p, Open(AcceptedRecord, stored), ins + [Tick(t)]).closed == Some(PaymentFailed)
    ensures var s, s' := Drive(p, Open(AcceptedRecord, stored), ins), Drive(p, Open(AcceptedRecord, stored), ins + [Tick(t)]);
      && s'.stream.phase == PaymentLost && s'.stream.errorCode == PaymentFailed
      && s'.stream.lowBalance == s.low && s'.stream.graceUntil == s.deadline
      && (stored.Some? && t.saveOk ==> s'.stored.Some? && s'.stored.value.phase == PaymentLost && s'.stored.value.errorCode == PaymentFailed)
  {
    var s := Drive(p, Open(AcceptedRecord, stored), ins);
    DriveSnoc(p, Open(AcceptedRecord, stored), ins, Tick(t));
    DurableWhileOpen(p, stored, ins);
    hide Drive, Written;
    LostTick(p, s, t);
  }

  lemma JudgeNotLost(p: Params, s: Session, t: TickInput, units: nat)
    requires s.closed.None?
    ensures Judge(p, s, t, units).closed != Some(PaymentFailed)
  {
  }

  lemma LostTick(p: Params, s: Session, t: TickInput)
    requires s.closed.None? && DoTick(p, s, t).closed == Some(PaymentFailed)
    ensures var s' := DoTick(p, s, t);
      && s'.stream == s.stream.(phase := PaymentLost, errorCode := PaymentFailed)
      && (s.stored.Some? && t.saveOk ==> s'.stored.Some? && s'.stored.value.phase == PaymentLost && s'.stored.value.errorCode == PaymentFailed)
  {
    if t.encoded > s.lastDebited && t.debitOk && !t.answer.Unanswered? {
      JudgeNotLost(p, Note(Attempt(s, t.encoded, t.debitOk, t.bumpOk).(lastDebited := t.encoded), [Check(t.answer)]), t,
                   CeilUnits(t.encoded - s.lastDebited));
    }
  }

  // ---- At the end ----

  /** A record that exists stays, and stays non-terminal until the final save. */
  ghost predicate InFlight(s: Session, stored: Option<Record>) {
    s.stored.Some? == stored.Some? && (s.stored.Some? ==> !s.stored.value.phase.IsTerminal())
  }

  lemma JudgeInFlight(p: Params, s: Session, t: TickInput, units: nat, stored: Option<Record>)
    requires InFlight(s, stored)
    ensures InFlight(Judge(p, s, t, units), stored)
  {
  }

  lemma TickInFlight(p: Params, s: Session, t: TickInput, stored: Option<Record>)
    requires InFlight(s, stored)
    ensures InFlight(DoTick(p, s, t), stored)
  {
    if t.encoded > s.lastDebited {
      hide Judge;
      var s2 := Note(Attempt(s, t.encoded, t.debitOk, t.bumpOk).(lastDebited := t.encoded), [Check(t.answer)]);
      JudgeInFlight(p, s2, t, CeilUnits(t.encoded - s.lastDebited), stored);
    }
  }

  lemma {:induction false} StoredLasts(p: Params, stored: Option<Record>, ins: seq<Input>)
    requires stored.Some? ==> stored.value == AcceptedRecord
    ensures InFlight(Drive(p, Open(AcceptedRecord, stored), ins), stored)
  {
    hide DoTick;
    if ins != [] {
      var init, x := ins[..|ins| - 1], ins[|ins| - 1];
      StoredLasts(p, stored, init);
      if x.Tick? { TickInFlight(p, Drive(p, Open(AcceptedRecord, stored), init), x.t, stored); }
    }
  }

  /** Durable refinement, at the end: whatever writes failed before, the record is terminal exactly when
      the final save landed, and then it carries the session's number, reason and encoded seconds. */
  lemma DurableAtEnd(p: Params, stored: Option<Record>, ins: seq<Input>, f: FinalInput)
    requires stored.Some? ==> stored.value == AcceptedRecord
    requires Drive(p, Open(AcceptedRecord, stored), ins).closed.Some?
    ensures var s := Drive(p, Open(AcceptedRecord, stored), ins);
      var e := Finish(p, s, f);
      && e.stored.Some? == stored.Some?
      && (stored.Some? ==>
            var r := e.stored.value;
            && (r.phase == Closed || r.phase == EncoderFailed || r.phase == BalanceExhausted <==> f.saveOk)
            && (f.saveOk ==> r.debitSeq == e.seq_ && r.closeReason == s.closed.value && r.unitsDebited == f.encoded / 10
                             && r.closedAt == Some(f.at) && !r.lowBalance && r.graceUntil.None?
                             && (r.phase == BalanceExhausted <==> s.closed.value == InsufficientBalance)
                             && (r.phase == EncoderFailed <==> s.closed.value == WorkerFailed)))
  {
    hide Drive;
    StoredLasts(p, stored, ins);
  }
}
