/** What a Pattern B session charges, and how the charge relates to the encoder clock and to the
    usage it reports. The books are read off the log alone, independently of the session's variables. */
module PatternBLedger {
  import opened LiveTypes
  import opened PatternB

  /** One debit line: its sequence number and its units. */
  datatype Line = Line(seq_: nat, units: nat)

  datatype Books = Books(attempted: seq<nat>, paid: seq<Line>, reported: seq<Line>, closes: nat)

  function Post(b: Books, a: Action): Books {
    match a
    case Debit(n, units, applied) =>
      b.(attempted := b.attempted + [n], paid := if applied then b.paid + [Line(n, units)] else b.paid)
    case Emit(UsageTick(n, units, _, _)) => b.(reported := b.reported + [Line(n, units)])
    case CloseSession => b.(closes := b.closes + 1)
    case _ => b
  }

  function BooksOf(log: seq<Action>): Books {
    if log == [] then Books([], [], [], 0) else Post(BooksOf(log[..|log| - 1]), log[|log| - 1])
  }

  function PostAll(b: Books, actions: seq<Action>): Books
    decreases |actions|
  {
    if actions == [] then b else PostAll(Post(b, actions[0]), actions[1..])
  }

  /** Units charged over all debit lines. */
  function Total(lines: seq<Line>): nat {
    if lines == [] then 0 else Total(lines[..|lines| - 1]) + lines[|lines| - 1].units
  }

  lemma TotalSnoc(lines: seq<Line>, l: Line)
    ensures Total(lines + [l]) == Total(lines) + l.units
  {
    assert (lines + [l])[..|lines|] == lines;
  }

  lemma {:induction false} BooksConcat(log: seq<Action>, actions: seq<Action>)
    ensures BooksOf(log + actions) == PostAll(BooksOf(log), actions)
    decreases |actions|
  {
    if actions == [] {
      assert log + actions == log;
    } else {
      var log1 := log + [actions[0]];
      assert log1[..|log|] == log;
      assert log1 + actions[1..] == log + actions;
      BooksConcat(log1, actions[1..]);
    }
  }

  lemma NoteBooks(s: Session, a: Action)
    ensures BooksOf(Note(s, [a]).log) == Post(BooksOf(s.log), a)
  {
    BooksConcat(s.log, [a]);
  }

  ghost predicate Billable(s: Session, t: TickInput) {
    t.encoded > s.lastDebited
  }

  /** What one tick does to the books: one attempt if time was encoded; a paid line if the broker
      took it; a reported line if the runway check answered as well. */
  lemma TickBooks(p: Params, s: Session, t: TickInput)
    ensures var s', b, b' := DoTick(p, s, t), BooksOf(s.log), BooksOf(DoTick(p, s, t).log);
      if !Billable(s, t) then s' == s
      else
        var line := Line(s.seq_ + 1, CeilUnits(t.encoded - s.lastDebited));
        && s'.seq_ == s.seq_ + 1
        && s'.lastDebited == (if t.debitOk then t.encoded else s.lastDebited)
        && b' == Books(b.attempted + [s.seq_ + 1],
                       if t.debitOk then b.paid + [line] else b.paid,
                       if t.debitOk && !t.answer.Unanswered? then b.reported + [line] else b.reported,
                       b.closes)
  {
    hide BooksOf;
    if Billable(s, t) {
      var s1 := Attempt(s, t.encoded, t.debitOk, t.bumpOk);
      AttemptBooks(s, t.encoded, t.debitOk, t.bumpOk);
      if !t.debitOk {
        LosePathBooks(s1, t.saveOk);
      } else {
        var s1' := s1.(lastDebited := t.encoded);
        var s2 := Note(s1', [Check(t.answer)]);
        NoteBooks(s1', Check(t.answer));
        if t.answer.Unanswered? {
          LosePathBooks(s2, t.saveOk);
        } else {
          JudgeBooks(p, s2, t, CeilUnits(t.encoded - s.lastDebited));
        }
      }
    }
  }

  lemma AttemptBooks(s: Session, encoded: nat, debitOk: bool, bumpOk: bool)
    requires encoded > s.lastDebited
    ensures var s', b := Attempt(s, encoded, debitOk, bumpOk), BooksOf(s.log);
      var line := Line(s.seq_ + 1, CeilUnits(encoded - s.lastDebited));
      && s'.seq_ == s.seq_ + 1 && s'.lastDebited == s.lastDebited
      && BooksOf(s'.log) == b.(attempted := b.attempted + [s.seq_ + 1], paid := if debitOk then b.paid + [line] else b.paid)
  {
    hide BooksOf;
    NoteBooks(s.(seq_ := s.seq_ + 1, stored := Bump(s.stored, bumpOk)),
              Debit(s.seq_ + 1, CeilUnits(encoded - s.lastDebited), debitOk));
  }

  lemma LosePathBooks(s: Session, saveOk: bool)
    ensures var s' := LosePath(s, saveOk);
      BooksOf(s'.log) == BooksOf(s.log) && s'.seq_ == s.seq_ && s'.lastDebited == s.lastDebited
  {
    hide BooksOf;
    NoteBooks(Persist(s, LosePayment, saveOk), Emit(PaymentError));
  }

  lemma JudgeBooks(p: Params, s: Session, t: TickInput, units: nat)
    ensures var s', b := Judge(p, s, t, units), BooksOf(s.log);
      && s'.seq_ == s.seq_ && s'.lastDebited == s.lastDebited
      && BooksOf(s'.log) == b.(reported := b.reported + [Line(s.seq_, units)])
  {
    hide BooksOf;
    var ok := t.answer.Sufficient?;
    var a := Emit(UsageTick(s.seq_, units, if ok then p.runway else 0, !ok));
    NoteBooks(s, a);
    NoteBooks(Note(s, [a]), Emit(BalanceRefilled(p.runway)));
    NoteBooks(Note(s, [a]), Emit(BalanceLow(0)));
  }

  /** What the closing settlement does to the books. */
  lemma FinishBooks(p: Params, s: Session, f: FinalInput)
    requires s.closed.Some?
    ensures var e, b, b' := Finish(p, s, f), BooksOf(s.log), BooksOf(Finish(p, s, f).log);
      var line := Line(s.seq_ + 1, CeilUnits(if f.encoded > s.lastDebited then f.encoded - s.lastDebited else 0));
      if f.encoded <= s.lastDebited then e.seq_ == s.seq_ && b' == b.(closes := b.closes + 1)
      else
        && e.seq_ == s.seq_ + 1
        && b' == Books(b.attempted + [s.seq_ + 1],
                       if f.debitOk then b.paid + [line] else b.paid,
                       if f.debitOk then b.reported + [line] else b.reported,
                       b.closes + 1)
  {
    hide BooksOf;
    SettleBooks(s, f);
    ClosingBooks(Settle(s, f).log, Ended(s.closed.value, f.encoded / 10));
    PartingBooks(p, Settle(s, f).log + [Emit(Ended(s.closed.value, f.encoded / 10)), CloseSession], f.encoded);
  }

  lemma SettleBooks(s: Session, f: FinalInput)
    requires s.closed.Some?
    ensures var s', b := Settle(s, f), BooksOf(s.log);
      if f.encoded <= s.lastDebited then s' == s
      else
        var line := Line(s.seq_ + 1, CeilUnits(f.encoded - s.lastDebited));
        && s'.seq_ == s.seq_ + 1
        && BooksOf(s'.log) == Books(b.attempted + [s.seq_ + 1],
                                    if f.debitOk then b.paid + [line] else b.paid,
                                    if f.debitOk then b.reported + [line] else b.reported,
                                    b.closes)
  {
    hide BooksOf;
    if f.encoded > s.lastDebited {
      var s0 := Attempt(s, f.encoded, f.debitOk, f.bumpOk);
      AttemptBooks(s, f.encoded, f.debitOk, f.bumpOk);
      NoteBooks(s0, Emit(UsageTick(s0.seq_, CeilUnits(f.encoded - s.lastDebited), 0, s.closed.value == InsufficientBalance)));
    }
  }

  lemma ClosingBooks(log: seq<Action>, ended: Event)
    requires ended.Ended?
    ensures var b := BooksOf(log);
      BooksOf(log + [Emit(ended), CloseSession]) == b.(closes := b.closes + 1)
  {
    hide BooksOf;
    var log1 := log + [Emit(ended)];
    var log2 := log1 + [CloseSession];
    assert log + [Emit(ended), CloseSession] == log2;
    BooksConcat(log, [Emit(ended)]);
    BooksConcat(log1, [CloseSession]);
  }

  /** Nothing is booked after the close. */
  lemma PartingBooks(p: Params, log: seq<Action>, tenths: nat)
    ensures BooksOf(log + Parting(p, tenths)) == BooksOf(log)
  {
    hide BooksOf;
    var log1 := log + [Emit(RecordingReady(tenths))];
    BooksConcat(log, [Emit(RecordingReady(tenths))]);
    BooksConcat(log1, [ReleaseLease]);
    BooksConcat(log, [ReleaseLease]);
    assert log + ([Emit(RecordingReady(tenths))] + [ReleaseLease]) == log1 + [ReleaseLease];
    assert [] + [ReleaseLease] == [ReleaseLease];
  }

  // ---- Billing bound ----

  /** Every tenth up to `covered` is paid for, and each paid line rounds up by at most nine tenths. */
  ghost predicate Covers(paid: seq<Line>, covered: nat) {
    covered <= 10 * Total(paid) <= covered + 9 * |paid|
  }

  lemma CoversMore(paid: seq<Line>, covered: nat, more: nat, n: nat)
    requires Covers(paid, covered) && more >= covered
    ensures Covers(paid + [Line(n, CeilUnits(more - covered))], more)
  {
    TotalSnoc(paid, Line(n, CeilUnits(more - covered)));
  }

  /** In every run, finished or not, the units charged cover exactly the time up to the last
      successful debit, rounded up once per successful debit. No assumption on the encoder. */
  lemma {:induction false} BillingInvariant(p: Params, stream: Record, stored: Option<Record>, ins: seq<Input>)
    ensures var s := Drive(p, Open(stream, stored), ins); Covers(BooksOf(s.log).paid, s.lastDebited)
  {
    hide DoTick;
    var s0 := Open(stream, stored);
    if ins == [] {
      BooksConcat([], [Emit(Ready)]);
      assert [] + [Emit(Ready)] == s0.log;
    } else {
      var init := ins[..|ins| - 1];
      BillingInvariant(p, stream, stored, init);
      var s, i := Drive(p, s0, init), ins[|ins| - 1];
      if i.Tick? {
        TickBooks(p, s, i.t);
        if Billable(s, i.t) {
          CoversMore(BooksOf(s.log).paid, s.lastDebited, i.t.encoded, s.seq_ + 1);
        }
      }
    }
  }

  /** The encoder clock never runs backwards, from the first tick to the settlement. */
  ghost predicate MonotoneClock(ins: seq<Input>, final: nat) {
    && (forall j, k | 0 <= j < k < |ins| && ins[j].Tick? && ins[k].Tick? :: ins[j].t.encoded <= ins[k].t.encoded)
    && (forall j | 0 <= j < |ins| && ins[j].Tick? :: ins[j].t.encoded <= final)
  }

  lemma {:induction false} DebitedIsRead(p: Params, s: Session, ins: seq<Input>, bound: nat)
    requires s.lastDebited <= bound
    requires forall j | 0 <= j < |ins| && ins[j].Tick? :: ins[j].t.encoded <= bound
    ensures Drive(p, s, ins).lastDebited <= bound
  {
    hide DoTick;
    if ins != [] {
      var init := ins[..|ins| - 1];
      assert forall j | 0 <= j < |init| :: init[j] == ins[j];
      DebitedIsRead(p, s, init, bound);
      var i := ins[|ins| - 1];
      if i.Tick? { TickBooks(p, Drive(p, s, init), i.t); }
    }
  }

  /** Billing bound for finished runs. With a monotone encoder clock, a run whose closing settlement
      went through or was not needed charges for all encoded time and for less than one unit more per
      debit. If the settlement fails, the unpaid rest is exactly what was encoded after the last
      successful debit: what was charged is what the run had charged before. */
  lemma BillingBound(p: Params, stream: Record, stored: Option<Record>, ins: seq<Input>, f: FinalInput)
    requires Drive(p, Open(stream, stored), ins).closed.Some?
    ensures var s := Drive(p, Open(stream, stored), ins);
      var before, after := BooksOf(s.log).paid, BooksOf(Finish(p, s, f).log).paid;
      && (f.encoded > s.lastDebited && f.debitOk ==> Covers(after, f.encoded))
      && (f.encoded <= s.lastDebited || !f.debitOk ==> after == before && Covers(after, s.lastDebited))
      && (MonotoneClock(ins, f.encoded) && (f.debitOk || f.encoded <= s.lastDebited) ==>
            f.encoded <= 10 * Total(after) && (after != [] ==> 10 * Total(after) - f.encoded < 10 * |after|))
  {
    hide Drive, Finish, BooksOf;
    var s := Drive(p, Open(stream, stored), ins);
    BillingInvariant(p, stream, stored, ins);
    FinishBooks(p, s, f);
    if f.encoded > s.lastDebited {
      CoversMore(BooksOf(s.log).paid, s.lastDebited, f.encoded, s.seq_ + 1);
    }
    if MonotoneClock(ins, f.encoded) {
      DebitedIsRead(p, Open(stream, stored), ins, f.encoded);
    }
  }

  // ---- Ledger versus reports ----

  ghost predicate Consecutive(from: nat, seqs: seq<nat>) {
    forall k | 0 <= k < |seqs| :: seqs[k] == from + 1 + k
  }

  /** `whole` with the line at `k` left out. */
  ghost predicate OmitsOne(whole: seq<Line>, part: seq<Line>, k: nat) {
    k < |whole| && part == whole[..k] + whole[k + 1..]
  }

  function FirstSeq(stored: Option<Record>): nat {
    if stored.Some? then stored.value.debitSeq else 0
  }

  /** The balance check of the closing tick got no answer, although its debit was taken. */
  ghost predicate LostCheck(log: seq<Action>) {
    |log| >= 2 && log[|log| - 2] == Check(Unanswered) && log[|log| - 1] == Emit(PaymentError)
  }

  /** Before the settlement: attempts are numbered consecutively from the stored number; every paid
      line is reported, except that a run closed by an unanswered balance check leaves out its last. */
  ghost predicate Reconciled(from: nat, s: Session) {
    var b := BooksOf(s.log);
    && s.seq_ >= from
    && Consecutive(from, b.attempted)
    && |b.attempted| == s.seq_ - from
    && b.closes == 0
    && (if LostCheck(s.log) then s.closed == Some(PaymentFailed) && |b.paid| > 0 && b.reported == b.paid[..|b.paid| - 1]
        else b.reported == b.paid)
  }

  lemma {:induction false} LedgerInvariant(p: Params, stream: Record, stored: Option<Record>, ins: seq<Input>)
    ensures Reconciled(FirstSeq(stored), Drive(p, Open(stream, stored), ins))
  {
    hide DoTick;
    var s0 := Open(stream, stored);
    if ins == [] {
      BooksConcat([], [Emit(Ready)]);
      assert [] + [Emit(Ready)] == s0.log;
    } else {
      var init := ins[..|ins| - 1];
      LedgerInvariant(p, stream, stored, init);
      var s, i := Drive(p, s0, init), ins[|ins| - 1];
      if i.Tick? && s.closed.None? {
        TickReconciled(FirstSeq(stored), p, s, i.t);
      }
    }
  }

  lemma TickReconciled(from: nat, p: Params, s: Session, t: TickInput)
    requires Reconciled(from, s) && s.closed.None?
    ensures Reconciled(from, DoTick(p, s, t))
  {
    hide BooksOf;
    TickBooks(p, s, t);
    if Billable(s, t) {
      TickLostCheck(p, s, t);
    }
  }

  lemma TickLostCheck(p: Params, s: Session, t: TickInput)
    requires Billable(s, t)
    ensures LostCheck(DoTick(p, s, t).log) <==> t.debitOk && t.answer.Unanswered?
    ensures t.debitOk && t.answer.Unanswered? ==> DoTick(p, s, t).closed == Some(PaymentFailed)
  {
    hide Judge;
    var s2 := Note(Attempt(s, t.encoded, t.debitOk, t.bumpOk).(lastDebited := t.encoded), [Check(t.answer)]);
    JudgeReports(p, s2, t, CeilUnits(t.encoded - s.lastDebited));
  }

  lemma JudgeReports(p: Params, s: Session, t: TickInput, units: nat)
    ensures !LostCheck(Judge(p, s, t, units).log)
  {
  }

  /** Over a whole run: sequence numbers are consecutive, the session is closed with the broker exactly
      once, and the reported usage is the paid usage, line by line, with at most one line left out; a
      line is left out exactly when the session closed because a balance check got no answer. */
  lemma LedgerVersusReports(p: Params, stream: Record, stored: Option<Record>, ins: seq<Input>, f: FinalInput)
    requires Drive(p, Open(stream, stored), ins).closed.Some?
    ensures var s := Drive(p, Open(stream, stored), ins);
      var e, b := Finish(p, s, f), BooksOf(Finish(p, s, f).log);
      && Consecutive(FirstSeq(stored), b.attempted)
      && |b.attempted| == e.seq_ - FirstSeq(stored)
      && b.closes == 1
      && (!LostCheck(s.log) ==> b.reported == b.paid)
      && (LostCheck(s.log) ==> s.closed == Some(PaymentFailed) && exists k: nat :: OmitsOne(b.paid, b.reported, k))
  {
    hide Drive, Finish, BooksOf;
    var s := Drive(p, Open(stream, stored), ins);
    var b0, b := BooksOf(s.log), BooksOf(Finish(p, s, f).log);
    LedgerInvariant(p, stream, stored, ins);
    FinishBooks(p, s, f);
    if LostCheck(s.log) {
      var k := |b0.paid| - 1;
      assert b.paid[..k] == b0.paid[..k];
      assert OmitsOne(b.paid, b.reported, k);
    }
  }
}
