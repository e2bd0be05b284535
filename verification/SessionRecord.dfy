/** The record of a session whose run has ended, with its second writer: a top-up reads the record and writes
    it back under the table's lock, and the final save of the run does not take that lock. */
module SessionRecord {
  import opened LiveTypes
  import opened Sessions
  import opened SessionSteps
  import opened SessionInvariant

  /** Until the name is registered or connected to again: nobody else writes the record. */
  ghost predicate Undisturbed(more: seq<Step>) {
    forall j | 0 <= j < |more| :: !(more[j].Starts? && more[j].a.SRegister?) && !(more[j].Ingests? && more[j].i.SConnectSave?)
  }

  /** The outcome of the first write-back among some steps. */
  function FirstTouch(more: seq<Step>): Option<bool> {
    if more == [] then None
    else
      var first, last := FirstTouch(more[..|more| - 1]), more[|more| - 1];
      if first.None? && last.Requests? && last.r.STouchSave? then Some(last.r.ok) else first
  }

  /** The run has written its final phase or has left, and the record stands at `phase`. */
  ghost predicate Resting(s: State, phase: Phase) {
    && s.sh.record.Some? && s.sh.record.value.phase == phase
    && (s.ingest.Some? ==> s.ingest.value.place.Saved? || s.ingest.value.place.Keyed?)
    && (s.sh.ctl.Some? ==> s.sh.ctl.value.running)
  }

  /** A top-up that reads the record now reads this phase. */
  ghost predicate TouchesAt(s: State, phase: Phase) {
    s.touch.Some? ==> s.touch.value.rec.phase == phase
  }

  lemma IngestRests(s: State, step: IngestStep, phase: Phase)
    requires Resting(s, phase) && !step.SConnectSave?
    ensures Resting(NextIngest(s, step), phase) && NextIngest(s, step).touch == s.touch
  {
  }

  lemma StartRests(s: State, step: StartStep, phase: Phase)
    requires Resting(s, phase) && !step.SRegister?
    ensures Resting(NextStart(s, step), phase) && NextStart(s, step).touch == s.touch
  {
  }

  lemma EndRests(s: State, step: EndStep, phase: Phase)
    requires Resting(s, phase)
    ensures Resting(NextEnd(s, step), phase) && NextEnd(s, step).touch == s.touch
  {
  }

  /** Of the steps of requests only a top-up's write-back changes the phase, to the one it read. */
  lemma RequestRests(s: State, step: RequestStep, phase: Phase)
    requires Resting(s, phase)
    ensures var s' := NextRequest(s, step);
      if step.STouchSave? && s.touch.Some?
      then s'.touch.None? && Resting(s', if step.ok then s.touch.value.rec.phase else phase)
      else Resting(s', phase) && (s.touch.Some? ==> s'.touch == s.touch) && (s.touch.None? ==> TouchesAt(s', phase))
  {
    hide HandsOf;
  }

  /** The phase at which the record stands, some steps after the final save: that of the save, unless a top-up
      held an older one and wrote it back. */
  function StandsAt(held: Option<Touch>, saved: Phase, more: seq<Step>): Phase {
    if held.Some? && FirstTouch(more) == Some(true) then held.value.rec.phase else saved
  }

  lemma {:induction false} StaysAt(s: State, saved: Phase, more: seq<Step>)
    requires Resting(s, saved) && Undisturbed(more)
    ensures var s' := Run(s, more);
      && Resting(s', StandsAt(s.touch, saved, more))
      && (if s.touch.Some? && FirstTouch(more).None? then s'.touch == s.touch
          else TouchesAt(s', StandsAt(s.touch, saved, more)))
  {
    hide NextStart, NextIngest, NextRequest, NextEnd, Resting;
    if more != [] {
      var init, step := more[..|more| - 1], more[|more| - 1];
      StaysAt(s, saved, init);
      var s1, phase := Run(s, init), StandsAt(s.touch, saved, init);
      match step
      case Starts(a) => StartRests(s1, a, phase);
      case Ingests(i) => IngestRests(s1, i, phase);
      case Requests(r) => RequestRests(s1, r, phase);
      case Ends(e) => EndRests(s1, e, phase);
    }
  }

  /** The phase a run ends in: for lack of balance, for worker failure, and for any other reason. */
  ghost function EndsIn(reason: Reason): Phase {
    if reason == InsufficientBalance then Phase.BalanceExhausted
    else if reason == WorkerFailed then Phase.EncoderFailed
    else Phase.Closed
  }

  /** The final phase, exactly: from every reachable state in which a run writes its final phase, and as long
      as nobody registers or connects under the name again, the record stands at the phase the run wrote if
      and only if no top-up that read an older phase before the save writes it back after the save. */
  lemma FinalPhase(name: Name, steps: seq<Step>, reason: Reason, more: seq<Step>)
    requires var s := Run(Initial(name), steps); AtPlace(s, Settled) && s.sh.record.Some?
    requires Undisturbed(more)
    ensures var s := Run(Initial(name), steps);
      var s' := Run(Next(s, Ingests(SRunSave(reason, true))), more);
      var undone := s.touch.Some? && s.touch.value.rec.phase != EndsIn(reason) && FirstTouch(more) == Some(true);
      && s'.sh.record.Some?
      && s'.sh.record.value.phase == (if undone then s.touch.value.rec.phase else EndsIn(reason))
      && (s'.sh.record.value.phase == EndsIn(reason) <==> !undone)
      && (OverPhase(s'.sh.record.value.phase) <==> !undone || OverPhase(s.touch.value.rec.phase))
  {
    var s := Run(Initial(name), steps);
    RunKeeps(name, steps);
    var s1 := Next(s, Ingests(SRunSave(reason, true)));
    assert Resting(s1, TerminalPhase(reason)) && s1.touch == s.touch;
    hide Run, Next, Inv;
    StaysAt(s1, TerminalPhase(reason), more);
  }

  // ---- Requests for a session that is over ----

  /** A session with this phase is over, or on its way out. */
  ghost predicate OverPhase(phase: Phase) {
    phase == Phase.Closed || phase == Phase.EncoderFailed || phase == Phase.BalanceExhausted || phase == Phase.Closing
  }

  ghost predicate IsTurned(s: State, k: nat) {
    Asks(s, k, Turned) && s.requests[k].found.None?
  }

  lemma IngestKeepsTurned(s: State, step: IngestStep, k: nat)
    requires IsTurned(s, k)
    ensures IsTurned(NextIngest(s, step), k)
  {
  }

  lemma StartKeepsTurned(s: State, step: StartStep, k: nat)
    requires IsTurned(s, k)
    ensures IsTurned(NextStart(s, step), k)
  {
  }

  lemma RequestKeepsTurned(s: State, step: RequestStep, k: nat)
    requires IsTurned(s, k)
    ensures IsTurned(NextRequest(s, step), k)
  {
    hide HandsOf;
  }

  lemma EndKeepsTurned(s: State, step: EndStep, k: nat)
    requires IsTurned(s, k)
    ensures IsTurned(NextEnd(s, step), k)
  {
  }

  lemma {:induction false} StaysTurned(s: State, more: seq<Step>, k: nat)
    requires IsTurned(s, k) && Inv(s)
    ensures IsTurned(Run(s, more), k) && Inv(Run(s, more))
  {
    hide Next, IsTurned, Inv;
    if more != [] {
      var s1, step := Run(s, more[..|more| - 1]), more[|more| - 1];
      StaysTurned(s, more[..|more| - 1], k);
      NextKeeps(s1, step);
      TurnedNext(s1, step, k);
    }
  }

  lemma TurnedNext(s: State, step: Step, k: nat)
    requires IsTurned(s, k)
    ensures IsTurned(Next(s, step), k)
  {
    hide IsTurned, NextStart, NextIngest, NextRequest, NextEnd;
    match step
    case Starts(a) => StartKeepsTurned(s, a, k);
    case Ingests(i) => IngestKeepsTurned(s, i, k);
    case Requests(r) => RequestKeepsTurned(s, r, k);
    case Ends(e) => EndKeepsTurned(s, e, k);
  }

  /** Requests for a session that is over, exactly: in every reachable state a request that checks the phase
      goes on if and only if there is a record and the phase last written to it is none of closed, encoder
      failed, balance exhausted and closing. Otherwise it is turned away, the cache entry is dropped if there
      is a record, and the request makes no call to the broker at any later time. */
  lemma TurnedAway(name: Name, steps: seq<Step>, k: nat, more: seq<Step>)
    requires Asks(Run(Initial(name), steps), k, Entered)
    ensures var s := Run(Initial(name), steps);
      var h, s' := HandsOf(s.log).record, Next(s, Requests(SCheckPhase(k)));
      var goes := h.Some? && !OverPhase(h.value.phase);
      && k < |s'.requests|
      && (s'.requests[k].at == Checked <==> goes)
      && (goes ==> s'.sh == s.sh)
      && (!goes ==>
            && s'.requests[k].at == Turned
            && s'.sh.entry == (if h.Some? then None else s.sh.entry)
            && forall e | e in Run(s', more).log && e.Called? :: e.who != Asker(k))
  {
    var s := Run(Initial(name), steps);
    RunKeeps(name, steps);
    var s' := Next(s, Requests(SCheckPhase(k)));
    NextKeeps(s, Requests(SCheckPhase(k)));
    hide Run, HandsOf;
    assert Sound(s.name, |s.starts|, s.requests[k]);
    var h := HandsOf(s.log).record;
    if h.None? || OverPhase(h.value.phase) {
      assert IsTurned(s', k);
      StaysTurned(s', more, k);
      var e' := Run(s', more);
      forall e | e in e'.log && e.Called? ensures e.who != Asker(k) {
        var j :| 0 <= j < |e'.log| && e'.log[j] == e;
        assert Fits(e', e'.log[j]);
      }
    }
  }
}
