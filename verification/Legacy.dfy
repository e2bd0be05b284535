/** The older kind of live session, billed by callbacks to the shell: every tick reports the seconds
    since the last accepted tick and the cumulative seconds; the shell answers with the remaining
    runway and may trigger the grace period; a low runway asks for a top-up, at most once per interval. */
module Legacy {
  import opened LiveTypes

  /** `grace` and `topupEvery` are in nanoseconds, `runway` in seconds. */
  datatype Params = Params(runway: int, grace: int, topupEvery: int)

  datatype Sent = Sent(seq_: nat, debit: nat, cumulative: nat, accepted: bool)

  /** The environment's part of one tick. `accepted` is whether the shell took the report; `trigger` and
      `runway` are its answer. `askAt` is the clock when a top-up is considered, `topupAt` after it. */
  datatype TickInput = TickInput(
    encoded: nat, accepted: bool, trigger: bool, runway: int,
    armAt: int, checkAt: int, askAt: int, topupOk: bool, topupAt: int, bumpOk: bool)

  /** A top-up the shell answered: when it was asked for and when the answer was recorded. */
  datatype Topup = Topup(askAt: int, at: int)

  datatype Session = Session(
    seq_: nat, lastDebited: nat, deadline: Option<int>, lastTopup: Option<int>,
    stored: Option<Record>, sent: seq<Sent>, topups: seq<Topup>, closed: bool)

  function Open(stored: Option<Record>): Session {
    Session(if stored.Some? then stored.value.debitSeq else 0, 0, None, None, stored, [], [], false)
  }

  function Report(s: Session, t: TickInput): Session {
    s.(seq_ := s.seq_ + 1, stored := Bump(s.stored, t.bumpOk),
       sent := s.sent + [Sent(s.seq_ + 1, Max(0, t.encoded - s.lastDebited), t.encoded, t.accepted)])
  }

  /** The grace period starts with the first trigger and ends when the runway is ample again. */
  function NextDeadline(p: Params, d: Option<int>, t: TickInput): Option<int> {
    if t.trigger then (if d.None? then Some(t.armAt + p.grace) else d)
    else if t.runway > p.runway then None
    else d
  }

  function AskTopup(p: Params, s: Session, t: TickInput): Session {
    if t.runway <= p.runway && (s.lastTopup.None? || t.askAt - s.lastTopup.value >= p.topupEvery) && t.topupOk
    then s.(lastTopup := Some(t.topupAt), topups := s.topups + [Topup(t.askAt, t.topupAt)])
    else s
  }

  function DoTick(p: Params, s: Session, t: TickInput): Session {
    var s1 := Report(s, t);
    if !t.accepted then s1
    else
      var s2 := s1.(lastDebited := t.encoded, deadline := NextDeadline(p, s1.deadline, t));
      if t.trigger && Past(s2.deadline, t.checkAt) then s2.(closed := true)
      else AskTopup(p, s2, t)
  }

  function Step(p: Params, s: Session, t: TickInput): Session {
    if s.closed then s else DoTick(p, s, t)
  }

  function Drive(p: Params, s: Session, ts: seq<TickInput>): Session {
    if ts == [] then s else Step(p, Drive(p, s, ts[..|ts| - 1]), ts[|ts| - 1])
  }

  /** The last report, sent only for time that is still unreported. */
  function Settle(s: Session, encoded: nat, accepted: bool): Session {
    if encoded <= s.lastDebited then s
    else s.(seq_ := s.seq_ + 1, sent := s.sent + [Sent(s.seq_ + 1, encoded - s.lastDebited, encoded, accepted)])
  }

  // ---- Telescoping ----

  /** The reports the shell accepted. */
  function Accepted(sent: seq<Sent>): seq<Sent> {
    if sent == [] then []
    else
      var rest := Accepted(sent[..|sent| - 1]);
      if sent[|sent| - 1].accepted then rest + [sent[|sent| - 1]] else rest
  }

  function Seconds(sent: seq<Sent>): nat {
    if sent == [] then 0 else Seconds(sent[..|sent| - 1]) + sent[|sent| - 1].debit
  }

  function Cumulative(sent: seq<Sent>): nat {
    if sent == [] then 0 else sent[|sent| - 1].cumulative
  }

  ghost predicate NonDecreasing(sent: seq<Sent>) {
    forall j, k | 0 <= j <= k < |sent| :: sent[j].cumulative <= sent[k].cumulative
  }

  /** Each accepted report bills the step from the one before it, and nothing for a step back. */
  ghost predicate Stepwise(sent: seq<Sent>) {
    sent == [] ||
    var init, last := sent[..|sent| - 1], sent[|sent| - 1];
    Stepwise(init) && last.debit == Max(0, last.cumulative - Cumulative(init))
  }

  lemma NonDecreasingSnoc(sent: seq<Sent>, x: Sent)
    ensures NonDecreasing(sent + [x]) <==> NonDecreasing(sent) && Cumulative(sent) <= x.cumulative
  {
    var sent' := sent + [x];
    assert forall j | 0 <= j < |sent| :: sent'[j] == sent[j];
    assert sent'[|sent|] == x;
  }

  /** Billed seconds never fall short of the cumulative reading, and match it exactly when the readings
      did not decrease. */
  lemma {:induction false} StepsTelescope(sent: seq<Sent>)
    requires Stepwise(sent)
    ensures Seconds(sent) >= Cumulative(sent)
    ensures Seconds(sent) == Cumulative(sent) <==> NonDecreasing(sent)
  {
    if sent != [] {
      hide NonDecreasing;
      var init, last := sent[..|sent| - 1], sent[|sent| - 1];
      StepsTelescope(init);
      NonDecreasingSnoc(init, last);
      assert init + [last] == sent;
    }
  }

  lemma AcceptedSnoc(sent: seq<Sent>, x: Sent)
    ensures Accepted(sent + [x]) == if x.accepted then Accepted(sent) + [x] else Accepted(sent)
  {
    assert (sent + [x])[..|sent|] == sent;
  }

  lemma StepwiseSnoc(sent: seq<Sent>, x: Sent)
    requires Stepwise(sent) && x.debit == Max(0, x.cumulative - Cumulative(sent))
    ensures Stepwise(sent + [x])
  {
    assert (sent + [x])[..|sent|] == sent;
  }

  /** What every run keeps: accepted reports step from one to the next, the last one is where the
      session stands, and all reports are numbered consecutively. */
  ghost predicate Billed(first: nat, s: Session) {
    && s.seq_ == first + |s.sent|
    && (forall k | 0 <= k < |s.sent| :: s.sent[k].seq_ == first + 1 + k)
    && Stepwise(Accepted(s.sent))
    && Cumulative(Accepted(s.sent)) == s.lastDebited
  }

  lemma TickBilled(p: Params, first: nat, s: Session, t: TickInput)
    requires Billed(first, s)
    ensures Billed(first, DoTick(p, s, t))
  {
    hide Accepted, Stepwise;
    AcceptedSnoc(s.sent, Sent(s.seq_ + 1, Max(0, t.encoded - s.lastDebited), t.encoded, t.accepted));
    StepwiseSnoc(Accepted(s.sent), Sent(s.seq_ + 1, Max(0, t.encoded - s.lastDebited), t.encoded, t.accepted));
  }

  lemma {:induction false} DriveBilled(p: Params, stored: Option<Record>, ts: seq<TickInput>)
    ensures Billed(Open(stored).seq_, Drive(p, Open(stored), ts))
  {
    hide DoTick, Billed;
    if ts == [] {
      OpenBilled(stored);
    } else {
      DriveBilled(p, stored, ts[..|ts| - 1]);
      TickBilled(p, Open(stored).seq_, Drive(p, Open(stored), ts[..|ts| - 1]), ts[|ts| - 1]);
    }
  }

  lemma OpenBilled(stored: Option<Record>)
    ensures Billed(Open(stored).seq_, Open(stored))
  {
  }

  // ---- The reports against the readings ----

  /** The reading of the last tick the shell took, zero before the first. */
  function LastTaken(ts: seq<TickInput>): nat {
    if ts == [] then 0
    else if ts[|ts| - 1].accepted then ts[|ts| - 1].encoded
    else LastTaken(ts[..|ts| - 1])
  }

  /** The report of tick `k`: its own reading, and the step from the last reading taken before it. */
  ghost predicate Tells(ts: seq<TickInput>, k: nat, x: Sent)
    requires k < |ts|
  {
    var r := LastTaken(ts[..k]);
    && x.cumulative == ts[k].encoded && x.accepted == ts[k].accepted
    && x.debit == if ts[k].encoded > r then ts[k].encoded - r else 0
  }

  /** Every tick that was run has its report. */
  ghost predicate Told(ts: seq<TickInput>, s: Session) {
    && |s.sent| <= |ts|
    && (!s.closed ==> |s.sent| == |ts|)
    && (forall k | 0 <= k < |s.sent| :: Tells(ts, k, s.sent[k]))
    && s.lastDebited == LastTaken(ts[..|s.sent|])
  }

  lemma TellsLater(ts: seq<TickInput>, t: TickInput, k: nat, x: Sent)
    requires k < |ts|
    ensures Tells(ts + [t], k, x) <==> Tells(ts, k, x)
  {
    assert (ts + [t])[..k] == ts[..k];
  }

  lemma ToldClosed(ts: seq<TickInput>, t: TickInput, s: Session)
    requires Told(ts, s) && s.closed
    ensures Told(ts + [t], s)
  {
    hide Tells;
    forall k | 0 <= k < |s.sent| ensures Tells(ts + [t], k, s.sent[k]) { TellsLater(ts, t, k, s.sent[k]); }
    assert (ts + [t])[..|s.sent|] == ts[..|s.sent|];
  }

  lemma TickTold(p: Params, ts: seq<TickInput>, s: Session, t: TickInput)
    requires Told(ts, s) && !s.closed
    ensures Told(ts + [t], DoTick(p, s, t))
  {
    hide DoTick;
    var ts', s' := ts + [t], DoTick(p, s, t);
    TickSends(p, s, t);
    assert ts[..|ts|] == ts && ts'[..|ts|] == ts && ts'[..|ts'|] == ts';
    assert Tells(ts', |ts|, s'.sent[|ts|]);
    hide Tells;
    forall k | 0 <= k < |s'.sent| ensures Tells(ts', k, s'.sent[k]) {
      if k < |s.sent| { TellsLater(ts, t, k, s.sent[k]); }
    }
  }

  lemma TickSends(p: Params, s: Session, t: TickInput)
    ensures var s' := DoTick(p, s, t);
      && s'.sent == s.sent + [Sent(s.seq_ + 1, if t.encoded > s.lastDebited then t.encoded - s.lastDebited else 0, t.encoded, t.accepted)]
      && s'.lastDebited == if t.accepted then t.encoded else s.lastDebited
  {
  }

  /** The reports tell the readings: in every run, whatever is lost. */
  lemma {:induction false} ReportsTell(p: Params, stored: Option<Record>, ts: seq<TickInput>)
    ensures Told(ts, Drive(p, Open(stored), ts))
  {
    hide DoTick;
    if ts != [] {
      hide Told;
      var init, t := ts[..|ts| - 1], ts[|ts| - 1];
      var s := Drive(p, Open(stored), init);
      assert ts == init + [t];
      ReportsTell(p, stored, init);
      if s.closed { ToldClosed(init, t, s); } else { TickTold(p, init, s, t); }
    }
  }

  /** The sum the shell bills for a list of readings: the steps up between readings it took. */
  function Bill(ts: seq<TickInput>): nat {
    if ts == [] then 0
    else
      var init, t := ts[..|ts| - 1], ts[|ts| - 1];
      Bill(init) + if t.accepted && t.encoded > LastTaken(init) then t.encoded - LastTaken(init) else 0
  }

  ghost predicate Rising(ts: seq<TickInput>) {
    forall j, k | 0 <= j <= k < |ts| && ts[j].accepted && ts[k].accepted :: ts[j].encoded <= ts[k].encoded
  }

  /** What accepted reports sum to, and whether they rise, read off the inputs. */
  lemma {:induction false} AcceptedTell(ts: seq<TickInput>, sent: seq<Sent>)
    requires |sent| == |ts| && forall k | 0 <= k < |sent| :: Tells(ts, k, sent[k])
    ensures Seconds(Accepted(sent)) == Bill(ts)
    ensures Cumulative(Accepted(sent)) == LastTaken(ts)
    ensures NonDecreasing(Accepted(sent)) <==> Rising(ts)
  {
    if ts != [] {
      var ts0, t, sent0, x := ts[..|ts| - 1], ts[|ts| - 1], sent[..|sent| - 1], sent[|sent| - 1];
      assert ts == ts0 + [t] && sent == sent0 + [x];
      assert Tells(ts, |ts0|, x);
      hide Rising, NonDecreasing, Stepwise;
      RisingSnoc(ts0, t);
      {
        hide Tells;
        forall k | 0 <= k < |sent0| ensures Tells(ts0, k, sent0[k]) {
          assert Tells(ts, k, sent[k]);
          TellsLater(ts0, t, k, sent0[k]);
        }
      }
      AcceptedTell(ts0, sent0);
      NonDecreasingSnoc(Accepted(sent0), x);
      assert (Accepted(sent0) + [x])[..|Accepted(sent0)|] == Accepted(sent0);
    }
  }

  lemma RisingSnoc(ts: seq<TickInput>, t: TickInput)
    ensures Rising(ts + [t]) ==> Rising(ts)
    ensures !t.accepted ==> (Rising(ts + [t]) <==> Rising(ts))
    ensures t.accepted && Rising(ts) ==> (Rising(ts + [t]) <==> LastTaken(ts) <= t.encoded)
  {
    var ts' := ts + [t];
    assert forall j | 0 <= j < |ts| :: ts'[j] == ts[j];
    assert ts'[|ts|] == t;
    if t.accepted && Rising(ts) {
      LastTakenIsLast(ts);
    }
  }

  lemma {:induction false} LastTakenIsLast(ts: seq<TickInput>)
    ensures (LastTaken(ts) == 0 && forall j | 0 <= j < |ts| :: !ts[j].accepted)
            || exists j :: 0 <= j < |ts| && ts[j].accepted && ts[j].encoded == LastTaken(ts)
                           && forall k | j < k < |ts| :: !ts[k].accepted
  {
    if ts != [] && !ts[|ts| - 1].accepted {
      var init := ts[..|ts| - 1];
      LastTakenIsLast(init);
      if j :| 0 <= j < |init| && init[j].accepted && init[j].encoded == LastTaken(init) && forall k | j < k < |init| :: !init[k].accepted {
        assert ts[j].accepted && forall k | j < k < |ts| :: !ts[k].accepted;
      }
    }
  }

  /** Telescoping over the readings: the seconds of all accepted reports are the steps up between accepted
      readings; they are never less than the last accepted reading, and equal it if and only if accepted
      readings did not decrease. */
  lemma BilledReadings(p: Params, stored: Option<Record>, ts: seq<TickInput>)
    ensures var s := Drive(p, Open(stored), ts);
      && |s.sent| <= |ts| && (!s.closed ==> |s.sent| == |ts|)
      && var read, sum := ts[..|s.sent|], Seconds(Accepted(s.sent));
        && sum == Bill(read) >= LastTaken(read)
        && (sum == LastTaken(read) <==> Rising(read))
  {
    hide Drive;
    var s := Drive(p, Open(stored), ts);
    ReportsTell(p, stored, ts);
    var read := ts[..|s.sent|];
    forall k | 0 <= k < |s.sent| ensures Tells(read, k, s.sent[k]) {
      assert Tells(ts, k, s.sent[k]) && read[..k] == ts[..k];
    }
    AcceptedTell(read, s.sent);
    Telescoping(p, stored, ts, s.lastDebited, true);
  }

  /** Legacy telescoping, exactly: for any pattern of lost ticks, the seconds billed by accepted ticks
      never fall short of the cumulative seconds they report, and equal them if and only if the
      accepted readings did not decrease; the closing report then completes the sum. */
  lemma Telescoping(p: Params, stored: Option<Record>, ts: seq<TickInput>, encoded: nat, accepted: bool)
    ensures var s := Drive(p, Open(stored), ts); var acc := Accepted(s.sent);
      && Seconds(acc) >= s.lastDebited == Cumulative(acc)
      && (Seconds(acc) == Cumulative(acc) <==> NonDecreasing(acc))
      && (NonDecreasing(acc) && encoded >= s.lastDebited && (accepted || encoded == s.lastDebited) ==>
            Seconds(Accepted(Settle(s, encoded, accepted).sent)) == encoded)
      && (forall k | 0 <= k < |Settle(s, encoded, accepted).sent| :: Settle(s, encoded, accepted).sent[k].seq_ == Open(stored).seq_ + 1 + k)
      && Settle(s, encoded, accepted).seq_ == Open(stored).seq_ + |Settle(s, encoded, accepted).sent|
      && (encoded > s.lastDebited <==> |Settle(s, encoded, accepted).sent| == |s.sent| + 1)
  {
    hide Drive;
    var s := Drive(p, Open(stored), ts);
    var acc := Accepted(s.sent);
    DriveBilled(p, stored, ts);
    StepsTelescope(acc);
    if encoded > s.lastDebited {
      var x := Sent(s.seq_ + 1, encoded - s.lastDebited, encoded, accepted);
      AcceptedSnoc(s.sent, x);
      assert (acc + [x])[..|acc|] == acc;
    }
  }

  // ---- Grace ----

  ghost predicate Trigger(ts: seq<TickInput>, k: nat) {
    k < |ts| && ts[k].accepted && ts[k].trigger
  }

  ghost predicate Clears(p: Params, ts: seq<TickInput>, k: nat) {
    k < |ts| && ts[k].accepted && !ts[k].trigger && ts[k].runway > p.runway
  }

  /** Every trigger before `n` was cleared before `n`. */
  ghost predicate Cleared(p: Params, ts: seq<TickInput>, n: nat) {
    forall j: nat | j < n && Trigger(ts, j) :: exists m: nat :: j < m < n && Clears(p, ts, m)
  }

  /** Tick `i` started the grace period that still runs. */
  ghost predicate GraceSince(p: Params, ts: seq<TickInput>, i: nat)
    ensures GraceSince(p, ts, i) ==> i < |ts|
  {
    Trigger(ts, i) && Cleared(p, ts, i) && forall j: nat | i < j < |ts| :: !Clears(p, ts, j)
  }

  /** The deadline is set exactly while a grace period runs, to its start plus the grace. */
  ghost predicate TracksGrace(p: Params, ts: seq<TickInput>, d: Option<int>) {
    match d
    case None => Cleared(p, ts, |ts|)
    case Some(at) => exists i: nat :: GraceSince(p, ts, i) && at == ts[i].armAt + p.grace
  }

  lemma ClearedSnoc(p: Params, ts: seq<TickInput>, t: TickInput, n: nat)
    requires n <= |ts| && Cleared(p, ts, n)
    ensures Cleared(p, ts + [t], n)
  {
    forall j: nat | j < n && Trigger(ts + [t], j) ensures exists m: nat :: j < m < n && Clears(p, ts + [t], m) {
      assert Trigger(ts, j);
      var m: nat :| j < m < n && Clears(p, ts, m);
      assert Clears(p, ts + [t], m);
    }
  }

  lemma ClearedAll(p: Params, ts: seq<TickInput>, t: TickInput)
    requires Clears(p, ts + [t], |ts|) || (Cleared(p, ts, |ts|) && !Trigger(ts + [t], |ts|))
    ensures Cleared(p, ts + [t], |ts| + 1)
  {
    if !Clears(p, ts + [t], |ts|) {
      ClearedSnoc(p, ts, t, |ts|);
      forall j: nat | j < |ts| + 1 && Trigger(ts + [t], j)
        ensures exists m: nat :: j < m < |ts| + 1 && Clears(p, ts + [t], m)
      {
        assert j < |ts|;
      }
    }
  }

  lemma DeadlineTracks(p: Params, ts: seq<TickInput>, d: Option<int>, t: TickInput)
    requires TracksGrace(p, ts, d)
    ensures TracksGrace(p, ts + [t], if t.accepted then NextDeadline(p, d, t) else d)
  {
    hide Cleared;
    var ts' := ts + [t];
    var d' := if t.accepted then NextDeadline(p, d, t) else d;
    assert ts'[|ts|] == t;
    if d'.None? {
      ClearedAll(p, ts, t);
    } else if d.None? {
      ClearedSnoc(p, ts, t, |ts|);
      assert GraceSince(p, ts', |ts|);
    } else {
      var i: nat :| GraceSince(p, ts, i) && d.value == ts[i].armAt + p.grace;
      ClearedSnoc(p, ts, t, i);
      assert ts'[i] == ts[i];
      forall j: nat | i < j < |ts'| ensures !Clears(p, ts', j) {
        assert j < |ts| ==> !Clears(p, ts, j) && ts'[j] == ts[j];
      }
      assert GraceSince(p, ts', i);
    }
  }

  lemma {:induction false} DriveGrace(p: Params, stored: Option<Record>, ts: seq<TickInput>)
    requires !Drive(p, Open(stored), ts).closed
    ensures TracksGrace(p, ts, Drive(p, Open(stored), ts).deadline)
  {
    if ts != [] {
      var init, t := ts[..|ts| - 1], ts[|ts| - 1];
      assert ts == init + [t];
      DriveGrace(p, stored, init);
      DeadlineTracks(p, init, Drive(p, Open(stored), init).deadline, t);
    }
  }

  lemma GraceUnique(p: Params, ts: seq<TickInput>, i: nat, j: nat)
    requires GraceSince(p, ts, i) && GraceSince(p, ts, j)
    ensures i == j
  {
  }

  /** Legacy grace, both ways: an open session closes on a tick exactly when the shell took the tick,
      triggered the grace period, and the tick comes strictly after the deadline set by the tick that
      started the period, with no clearing tick since. */
  lemma {:induction false} LegacyGrace(p: Params, stored: Option<Record>, ts: seq<TickInput>, t: TickInput)
    requires !Drive(p, Open(stored), ts).closed
    ensures Drive(p, Open(stored), ts + [t]).closed <==>
            Trigger(ts + [t], |ts|)
            && exists i: nat :: GraceSince(p, ts + [t], i) && t.checkAt > (ts + [t])[i].armAt + p.grace
  {
    hide Cleared;
    var s, ts' := Drive(p, Open(stored), ts), ts + [t];
    assert ts'[..|ts|] == ts && ts'[|ts|] == t;
    DriveGrace(p, stored, ts);
    DeadlineTracks(p, ts, s.deadline, t);
    if Trigger(ts', |ts|) {
      var d := NextDeadline(p, s.deadline, t);
      var i: nat :| GraceSince(p, ts', i) && d.value == ts'[i].armAt + p.grace;
      forall j: nat | GraceSince(p, ts', j) ensures j == i { GraceUnique(p, ts', i, j); }
    }
  }

  // ---- Top-ups ----

  ghost predicate Spaced(p: Params, topups: seq<Topup>) {
    forall k | 0 < k < |topups| :: topups[k].askAt - topups[k - 1].at >= p.topupEvery
  }

  /** Top-ups are rate limited: each is asked for no sooner than the interval after the one before. */
  lemma {:induction false} TopupsSpaced(p: Params, stored: Option<Record>, ts: seq<TickInput>)
    ensures var s := Drive(p, Open(stored), ts);
      && Spaced(p, s.topups)
      && s.lastTopup == if s.topups == [] then None else Some(s.topups[|s.topups| - 1].at)
  {
    if ts != [] {
      TopupsSpaced(p, stored, ts[..|ts| - 1]);
    }
  }

  /** And none is missed: a tick tops up exactly when the shell took it, it leaves the session open, the runway
      is short, the interval since the last one is over, and the shell answers. */
  lemma TopupWhenDue(p: Params, stored: Option<Record>, ts: seq<TickInput>, t: TickInput)
    requires !Drive(p, Open(stored), ts).closed
    ensures var s := Drive(p, Open(stored), ts);
      var due := t.accepted && !DoTick(p, s, t).closed && t.runway <= p.runway && t.topupOk
                 && (s.topups == [] || t.askAt - s.topups[|s.topups| - 1].at >= p.topupEvery);
      DoTick(p, s, t).topups == if due then s.topups + [Topup(t.askAt, t.topupAt)] else s.topups
  {
    hide Drive;
    TopupsSpaced(p, stored, ts);
  }

  // ---- The stored number ----

  /** While every increment lands, the stored number is the number of the last report. */
  lemma {:induction false} StoredNumber(p: Params, stored: Option<Record>, ts: seq<TickInput>)
    ensures var s := Drive(p, Open(stored), ts);
      && s.stored.Some? == stored.Some?
      && (stored.Some? && (forall k | 0 <= k < |ts| :: ts[k].bumpOk) ==> s.stored.value.debitSeq == s.seq_)
  {
    hide DoTick;
    if ts != [] {
      StoredNumber(p, stored, ts[..|ts| - 1]);
      TickNumber(p, Drive(p, Open(stored), ts[..|ts| - 1]), ts[|ts| - 1]);
    }
  }

  lemma TickNumber(p: Params, s: Session, t: TickInput)
    ensures var s' := DoTick(p, s, t);
      && s'.seq_ == s.seq_ + 1 && s'.stored.Some? == s.stored.Some?
      && (s.stored.Some? ==> s'.stored.value.debitSeq == s.stored.value.debitSeq + if t.bumpOk then 1 else 0)
  {
  }

  // ---- The loop ----

  class LegacySession {
    const p: Params
    var seq_: nat
    var lastDebited: nat
    var graceDeadline: Option<int>
    var lastTopup: Option<int>
    var stored: Option<Record>
    var sent: seq<Sent>
    var topups: seq<Topup>
    var closed: bool

    function Value(): Session
      reads this
    {
      Session(seq_, lastDebited, graceDeadline, lastTopup, stored, sent, topups, closed)
    }

    constructor (p: Params, stored: Option<Record>)
      ensures this.p == p && Value() == Open(stored)
    {
      this.p := p;
      seq_, lastDebited := if stored.Some? then stored.value.debitSeq else 0, 0;
      graceDeadline, lastTopup := None, None;
      this.stored := stored;
      sent, topups, closed := [], [], false;
    }

    /** Ask for a top-up if the runway is short and the last one is long enough ago. */
    method MaybeTopup(t: TickInput)
      modifies this`lastTopup, this`topups
      ensures Value() == AskTopup(p, old(Value()), t)
    {
      if t.runway <= p.runway {
        if lastTopup.None? || t.askAt - lastTopup.value >= p.topupEvery {
          if t.topupOk {
            lastTopup := Some(t.topupAt);
            topups := topups + [Topup(t.askAt, t.topupAt)];
          }
        }
      }
    }

    /** One tick: report, and if the shell takes it, follow its answer. */
    method Tick(t: TickInput)
      requires !closed
      modifies this
      ensures Value() == DoTick(p, old(Value()), t)
    {
      hide AskTopup;
      var debit := if t.encoded < lastDebited then 0 else t.encoded - lastDebited;
      seq_ := seq_ + 1;
      stored := Bump(stored, t.bumpOk);
      sent := sent + [Sent(seq_, debit, t.encoded, t.accepted)];
      if !t.accepted {
        return;
      }
      lastDebited := t.encoded;
      if t.trigger {
        if graceDeadline.None? {
          graceDeadline := Some(t.armAt + p.grace);
        }
        if Past(graceDeadline, t.checkAt) {
          closed := true;
          return;
        }
      } else if graceDeadline.Some? && t.runway > p.runway {
        graceDeadline := None;
      }
      MaybeTopup(t);
    }

    /** The closing report, for time that no accepted tick has billed. */
    method LastReport(encoded: nat, accepted: bool)
      modifies this`seq_, this`sent
      ensures Value() == Settle(old(Value()), encoded, accepted)
    {
      if encoded > lastDebited {
        seq_ := seq_ + 1;
        sent := sent + [Sent(seq_, encoded - lastDebited, encoded, accepted)];
      }
    }

    /** Ticks until one closes the session or the list is used up. */
    method Run(ts: seq<TickInput>)
      requires !closed
      modifies this
      ensures Value() == Drive(p, old(Value()), ts)
    {
      ghost var s0 := Value();
      for i := 0 to |ts|
        invariant Value() == Drive(p, s0, ts[..i])
      {
        assert ts[..i + 1][..i] == ts[..i];
        if !closed {
          Tick(ts[i]);
        }
      }
      assert ts[..|ts|] == ts;
    }
  }
}
