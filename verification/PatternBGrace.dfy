/** When a Pattern B session may be closed for lack of balance, told in terms of the inputs alone:
    which ticks were checked, which check opened the grace period, and when each check was made. */
module PatternBGrace {
  import opened LiveTypes
  import opened PatternB

  /** Tick `k` read more encoded time than every tick before it. Only such ticks debit and check. */
  ghost predicate NewHigh(ins: seq<Input>, k: nat)
    ensures NewHigh(ins, k) ==> k < |ins| && ins[k].Tick?
  {
    && k < |ins| && ins[k].Tick? && ins[k].t.encoded > 0
    && forall j | 0 <= j < k && ins[j].Tick? :: ins[j].t.encoded < ins[k].t.encoded
  }

  ghost predicate Short(ins: seq<Input>, k: nat) {
    NewHigh(ins, k) && ins[k].t.answer.Insufficient?
  }

  ghost predicate Ample(ins: seq<Input>, k: nat) {
    NewHigh(ins, k) && ins[k].t.answer.Sufficient?
  }

  /** Every shortage before `n` was followed, before `n`, by a sufficient check. */
  ghost predicate Recovered(ins: seq<Input>, n: nat) {
    forall j: nat | j < n && Short(ins, j) :: exists m: nat :: j < m < n && Ample(ins, m)
  }

  /** Check `i` opened the grace period that still lasts: it found too little, all was well before
      it, and every check since found too little. */
  ghost predicate LowSince(ins: seq<Input>, i: nat) {
    && Short(ins, i)
    && Recovered(ins, i)
    && forall j: nat | i <= j && NewHigh(ins, j) :: Short(ins, j)
  }

  /** The deadline of the grace period that check `i` opened. */
  function DeadlineOf(p: Params, ins: seq<Input>, i: nat): int
    requires i < |ins| && ins[i].Tick?
  {
    ins[i].t.armAt + p.grace
  }

  /** No check from `i` on was made after the deadline that check `i` set. */
  ghost predicate InTime(p: Params, ins: seq<Input>, i: nat)
    requires i < |ins| && ins[i].Tick?
  {
    forall j: nat | i <= j && NewHigh(ins, j) :: ins[j].t.checkAt <= DeadlineOf(p, ins, i)
  }

  /** `high` is the largest reading so far, zero before the first. */
  ghost predicate Peak(ins: seq<Input>, high: nat) {
    && (forall j | 0 <= j < |ins| && ins[j].Tick? :: ins[j].t.encoded <= high)
    && (high == 0 || exists j :: 0 <= j < |ins| && ins[j].Tick? && ins[j].t.encoded == high)
  }

  ghost predicate FromOutside(r: Reason) {
    r.Graceful? || r.AdminStop? || r.WorkerFailed?
  }

  /** What an open session's variables mean in terms of the inputs it has read. */
  ghost predicate Tracks(p: Params, ins: seq<Input>, s: Session) {
    && Peak(ins, s.lastDebited)
    && FromOutside(s.reason)
    && (if s.low then exists i: nat :: LowSince(ins, i) && s.deadline == Some(DeadlineOf(p, ins, i)) && InTime(p, ins, i)
        else s.deadline.None? && Recovered(ins, |ins|))
  }

  lemma Extend(ins: seq<Input>, x: Input)
    ensures forall k: nat | k < |ins| :: NewHigh(ins + [x], k) == NewHigh(ins, k)
    ensures forall k: nat | k < |ins| :: Short(ins + [x], k) == Short(ins, k)
    ensures forall k: nat | k < |ins| :: Ample(ins + [x], k) == Ample(ins, k)
  {
    assert forall k: nat | k < |ins| :: (ins + [x])[k] == ins[k];
  }

  lemma ExtendRecovered(ins: seq<Input>, x: Input, n: nat)
    requires n <= |ins|
    ensures Recovered(ins + [x], n) == Recovered(ins, n)
  {
    Extend(ins, x);
    var ins' := ins + [x];
    if Recovered(ins, n) {
      forall j: nat | j < n && Short(ins', j) ensures exists m: nat :: j < m < n && Ample(ins', m) {
        assert Short(ins, j);
        var m: nat :| j < m < n && Ample(ins, m);
        assert Ample(ins', m);
      }
    }
    if Recovered(ins', n) {
      forall j: nat | j < n && Short(ins, j) ensures exists m: nat :: j < m < n && Ample(ins, m) {
        assert Short(ins', j);
        var m: nat :| j < m < n && Ample(ins', m);
        assert Ample(ins, m);
      }
    }
  }

  lemma HighIsBillable(ins: seq<Input>, high: nat, t: TickInput)
    requires Peak(ins, high)
    ensures NewHigh(ins + [Tick(t)], |ins|) <==> t.encoded > high
    ensures Peak(ins + [Tick(t)], Max(high, t.encoded))
  {
    var ins' := ins + [Tick(t)];
    assert forall k | 0 <= k < |ins| :: ins'[k] == ins[k];
    if high > 0 {
      var j :| 0 <= j < |ins| && ins[j].Tick? && ins[j].t.encoded == high;
      assert ins'[j] == ins[j];
    }
    assert ins'[|ins|] == Tick(t);
  }

  /** A grace period has one beginning, and no grace period lasts once all shortages are recovered. */
  lemma LowSinceUnique(ins: seq<Input>, i: nat, i': nat)
    requires LowSince(ins, i)
    ensures LowSince(ins, i') ==> i == i'
    ensures !Recovered(ins, |ins|)
  {
  }

  /** A grace period outlasts every input that is not a sufficient check. */
  lemma LowLasts(ins: seq<Input>, x: Input, i: nat)
    requires LowSince(ins, i)
    requires NewHigh(ins + [x], |ins|) ==> Short(ins + [x], |ins|)
    ensures LowSince(ins + [x], i)
  {
    hide Recovered, NewHigh;
    Extend(ins, x);
    ExtendRecovered(ins, x, i);
  }

  /** Being in time is judged check by check. */
  lemma InTimeExtends(p: Params, ins: seq<Input>, x: Input, i: nat)
    requires i < |ins| && ins[i].Tick?
    ensures (ins + [x])[i] == ins[i]
    ensures InTime(p, ins + [x], i) <==>
            InTime(p, ins, i) && (NewHigh(ins + [x], |ins|) ==> x.t.checkAt <= DeadlineOf(p, ins, i))
  {
    var ins' := ins + [x];
    Extend(ins, x);
    assert forall j: nat | j < |ins| :: ins'[j] == ins[j];
    assert ins'[|ins|] == x;
  }

  /** Without a new shortage, what was recovered stays recovered; a sufficient check recovers all. */
  lemma RecoveredLasts(ins: seq<Input>, x: Input)
    requires (Recovered(ins, |ins|) && !Short(ins + [x], |ins|)) || Ample(ins + [x], |ins|)
    ensures Recovered(ins + [x], |ins| + 1)
  {
    hide NewHigh;
    var ins' := ins + [x];
    if Ample(ins', |ins|) {
      assert forall j: nat | j < |ins| + 1 && Short(ins', j) :: j < |ins| < |ins| + 1 && Ample(ins', |ins|);
    } else {
      ExtendRecovered(ins, x, |ins|);
      forall j: nat | j < |ins| + 1 && Short(ins', j) ensures exists m: nat :: j < m < |ins| + 1 && Ample(ins', m) {
        assert j < |ins|;
      }
    }
  }

  /** A further input that is not a checked tick leaves the grace period as it was. */
  lemma UncheckedKeeps(p: Params, ins: seq<Input>, x: Input, s: Session, s': Session)
    requires Tracks(p, ins, s)
    requires !NewHigh(ins + [x], |ins|)
    requires Peak(ins + [x], s'.lastDebited) && FromOutside(s'.reason) && s'.low == s.low && s'.deadline == s.deadline
    ensures Tracks(p, ins + [x], s')
  {
    hide NewHigh, Recovered, InTime, Peak;
    var ins' := ins + [x];
    if s.low {
      var i: nat :| LowSince(ins, i) && s.deadline == Some(DeadlineOf(p, ins, i)) && InTime(p, ins, i);
      LowLasts(ins, x, i);
      InTimeExtends(p, ins, x, i);
      assert LowSince(ins', i) && s'.deadline == Some(DeadlineOf(p, ins', i)) && InTime(p, ins', i);
    } else {
      RecoveredLasts(ins, x);
    }
  }

  /** A short check outside a grace period opens one. */
  lemma ShortOpens(p: Params, ins: seq<Input>, t: TickInput)
    requires Recovered(ins, |ins|) && Short(ins + [Tick(t)], |ins|)
    ensures LowSince(ins + [Tick(t)], |ins|)
    ensures InTime(p, ins + [Tick(t)], |ins|) <==> t.checkAt <= DeadlineOf(p, ins + [Tick(t)], |ins|)
  {
    ExtendRecovered(ins, Tick(t), |ins|);
  }

  /** The verdict of the checked tick that follows `ins`: the check that opened the current grace
      period, and whether the present check comes after the deadline it set. */
  lemma ShortVerdict(p: Params, ins: seq<Input>, s: Session, t: TickInput) returns (i: nat)
    requires Tracks(p, ins, s) && Short(ins + [Tick(t)], |ins|)
    ensures LowSince(ins + [Tick(t)], i)
    ensures var d := if s.low then s.deadline else Some(t.armAt + p.grace);
      d == Some(DeadlineOf(p, ins + [Tick(t)], i))
    ensures t.checkAt <= DeadlineOf(p, ins + [Tick(t)], i) <==> InTime(p, ins + [Tick(t)], i)
  {
    hide NewHigh, Recovered, InTime, Peak;
    if s.low {
      i :| LowSince(ins, i) && s.deadline == Some(DeadlineOf(p, ins, i)) && InTime(p, ins, i);
      LowLasts(ins, Tick(t), i);
      InTimeExtends(p, ins, Tick(t), i);
    } else {
      i := |ins|;
      ShortOpens(p, ins, t);
    }
  }

  /** The effect of a tick on the variables of the grace logic. */
  lemma TickGrace(p: Params, s: Session, t: TickInput)
    requires s.closed.None? && (s.low || s.deadline.None?)
    ensures var s' := DoTick(p, s, t);
      && s'.reason == s.reason
      && (t.encoded <= s.lastDebited ==> s' == s)
      && (t.encoded > s.lastDebited && (!t.debitOk || t.answer.Unanswered?) ==> s'.closed == Some(PaymentFailed))
      && (t.encoded > s.lastDebited && t.debitOk && t.answer.Sufficient? ==>
            s'.closed.None? && !s'.low && s'.deadline.None? && s'.lastDebited == t.encoded)
      && (t.encoded > s.lastDebited && t.debitOk && t.answer.Insufficient? ==>
            var d := if s.low then s.deadline else Some(t.armAt + p.grace);
            && s'.low && s'.deadline == d && s'.lastDebited == t.encoded
            && s'.closed == if Past(d, t.checkAt) then Some(InsufficientBalance) else None)
  {
  }

  lemma TickTracks(p: Params, ins: seq<Input>, s: Session, t: TickInput)
    requires Tracks(p, ins, s) && s.closed.None? && DoTick(p, s, t).closed.None?
    ensures Tracks(p, ins + [Tick(t)], DoTick(p, s, t))
  {
    var ins', s' := ins + [Tick(t)], DoTick(p, s, t);
    TickGrace(p, s, t);
    HighIsBillable(ins, s.lastDebited, t);
    if t.encoded <= s.lastDebited {
      UncheckedKeeps(p, ins, Tick(t), s, s');
    } else if t.answer.Sufficient? {
      RecoveredLasts(ins, Tick(t));
    } else {
      assert Short(ins', |ins|);
      var i := ShortVerdict(p, ins, s, t);
      assert LowSince(ins', i) && s'.deadline == Some(DeadlineOf(p, ins', i)) && InTime(p, ins', i);
    }
  }

  lemma OtherTracks(p: Params, ins: seq<Input>, s: Session, x: Input)
    requires Tracks(p, ins, s) && s.closed.None? && !x.Tick? && Step(p, s, x).closed.None?
    ensures Tracks(p, ins + [x], Step(p, s, x))
  {
    assert Peak(ins + [x], s.lastDebited) by {
      assert forall k | 0 <= k < |ins| :: (ins + [x])[k] == ins[k];
      assert Peak(ins, s.lastDebited);
    }
    UncheckedKeeps(p, ins, x, s, Step(p, s, x));
  }

  /** In every open state the session's variables track the inputs. */
  lemma {:induction false} OpenTracks(p: Params, stream: Record, stored: Option<Record>, ins: seq<Input>)
    requires Drive(p, Open(stream, stored), ins).closed.None?
    ensures Tracks(p, ins, Drive(p, Open(stream, stored), ins))
  {
    hide DoTick;
    if ins != [] {
      hide Tracks;
      var init, x := ins[..|ins| - 1], ins[|ins| - 1];
      assert ins == init + [x];
      var s := Drive(p, Open(stream, stored), init);
      OpenTracks(p, stream, stored, init);
      if x.Tick? {
        TickTracks(p, init, s, x.t);
      } else {
        OtherTracks(p, init, s, x);
      }
    }
  }

  /** Grace safety, open half. An open session is in low balance exactly when some check opened a grace
      period that still lasts; the deadline is that check's time plus the grace period, and no check
      since was made after it. */
  lemma GraceWhileOpen(p: Params, stream: Record, stored: Option<Record>, ins: seq<Input>)
    requires Drive(p, Open(stream, stored), ins).closed.None?
    ensures var s := Drive(p, Open(stream, stored), ins);
      && (s.low <==> exists i: nat :: LowSince(ins, i))
      && (s.low <==> s.deadline.Some?)
      && forall i: nat | LowSince(ins, i) :: s.deadline == Some(DeadlineOf(p, ins, i)) && InTime(p, ins, i)
  {
    OpenTracks(p, stream, stored, ins);
    var s := Drive(p, Open(stream, stored), ins);
    forall i: nat | LowSince(ins, i)
      ensures s.low && s.deadline == Some(DeadlineOf(p, ins, i)) && InTime(p, ins, i)
    {
      LowSinceUnique(ins, i, i);
      var i0: nat :| LowSince(ins, i0) && s.deadline == Some(DeadlineOf(p, ins, i0)) && InTime(p, ins, i0);
      LowSinceUnique(ins, i0, i);
    }
  }

  /** The input that closes a session for lack of balance: a tick with new encoded time, whose debit was
      taken, that finds too little once more and comes strictly after the deadline of the grace period. */
  ghost predicate ClosesForBalance(p: Params, ins: seq<Input>, x: Input) {
    var ins' := ins + [x];
    && Short(ins', |ins|)
    && x.t.debitOk
    && exists i: nat :: LowSince(ins', i) && x.t.checkAt > DeadlineOf(p, ins', i)
  }

  /** Grace safety, closing half, both ways: an open session closes for insufficient balance on an
      input exactly when the input is such a tick. */
  lemma GraceAtClose(p: Params, stream: Record, stored: Option<Record>, ins: seq<Input>, x: Input)
    requires Drive(p, Open(stream, stored), ins).closed.None?
    ensures Drive(p, Open(stream, stored), ins + [x]).closed == Some(InsufficientBalance) <==> ClosesForBalance(p, ins, x)
  {
    var s := Drive(p, Open(stream, stored), ins);
    OpenTracks(p, stream, stored, ins);
    DriveSnoc(p, Open(stream, stored), ins, x);
    if x.Tick? {
      TickGrace(p, s, x.t);
      HighIsBillable(ins, s.lastDebited, x.t);
      if Short(ins + [x], |ins|) && x.t.debitOk {
        var i := ShortVerdict(p, ins, s, x.t);
        forall i': nat | LowSince(ins + [x], i') ensures i' == i {
          LowSinceUnique(ins + [x], i, i');
        }
      }
    }
  }

  /** Over whole runs: a run closed for insufficient balance contains a check after which it closed,
      preceded by an unbroken series of short checks whose first set the deadline that had passed. */
  lemma {:induction false} GraceSafety(p: Params, stream: Record, stored: Option<Record>, ins: seq<Input>)
    requires Drive(p, Open(stream, stored), ins).closed == Some(InsufficientBalance)
    ensures exists k: nat :: k < |ins| && Drive(p, Open(stream, stored), ins[..k]).closed.None?
                             && ClosesForBalance(p, ins[..k], ins[k])
  {
    var s0 := Open(stream, stored);
    var init := ins[..|ins| - 1];
    if Drive(p, s0, init).closed.None? {
      assert ins == init + [ins[|ins| - 1]];
      GraceAtClose(p, stream, stored, init, ins[|ins| - 1]);
    } else {
      GraceSafety(p, stream, stored, init);
      var k: nat :| k < |init| && Drive(p, s0, init[..k]).closed.None? && ClosesForBalance(p, init[..k], init[k]);
      assert init[..k] == ins[..k] && init[k] == ins[k];
    }
  }
}
