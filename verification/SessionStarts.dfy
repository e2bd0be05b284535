/** The calls of starts and runs, and which starts get into the table. */
module SessionStarts {
  import opened LiveTypes
  import opened Sessions
  import opened SessionSteps
  import opened SessionInvariant

  /** Calls of one kind made by one start. */
  function CallsBy(log: seq<Event>, verb: Verb, n: nat): nat {
    if log == [] then 0
    else
      var e := log[|log| - 1];
      CallsBy(log[..|log| - 1], verb, n) + if e.Called? && e.verb == verb && e.who == Session(n) then 1 else 0
  }

  lemma CallsBySnoc(log: seq<Event>, e: Event)
    ensures forall verb, n: nat :: CallsBy(log + [e], verb, n) ==
              CallsBy(log, verb, n) + if e.Called? && e.verb == verb && e.who == Session(n) then 1 else 0
  {
    assert (log + [e])[..|log|] == log;
  }

  predicate StartCall(e: Event) {
    e.Called? && e.who.Session? && (e.verb.OpenSession? || e.verb.Credit?)
  }

  /** A start that got as far as the runner has opened its session and credited its ticket, once each; no
      start does either twice. */
  ghost predicate Called1(s: State, n: nat)
    requires n < |s.starts|
  {
    var opens, credits := CallsBy(s.log, OpenSession, n), CallsBy(s.log, Credit, n);
    && credits <= opens <= 1
    && (s.starts[n].stage.Paid? || s.starts[n].stage.Registered? || s.starts[n].stage.Answered? ==> credits == 1)
    && (s.starts[n].stage.Unasked? ==> opens == 0)
  }

  ghost predicate StartsCalled(s: State) {
    forall n | 0 <= n < |s.starts| :: Called1(s, n)
  }

  /** A step that is not a start adds at most one event, and that is not a start's call; a stage only moves on. */
  ghost predicate Quiet(s: State, s': State) {
    && |s.log| <= |s'.log| <= |s.log| + 1 && s'.log[..|s.log|] == s.log
    && (|s'.log| > |s.log| ==> !StartCall(s'.log[|s.log|]))
    && |s.starts| <= |s'.starts| <= |s.starts| + 1
    && (forall n | 0 <= n < |s.starts| :: s'.starts[n] == s.starts[n])
    && (|s'.starts| > |s.starts| ==> s'.starts[|s.starts|].stage.Unasked?)
  }

  lemma IngestQuiet(s: State, step: IngestStep)
    ensures Quiet(s, NextIngest(s, step))
  {
  }

  lemma RequestQuiet(s: State, step: RequestStep)
    ensures Quiet(s, NextRequest(s, step))
  {
    hide HandsOf, Check, Active;
  }

  lemma EndQuiet(s: State, step: EndStep)
    ensures Quiet(s, NextEnd(s, step))
  {
  }

  lemma {:induction false} NoCallsYet(s: State, verb: Verb, n: nat)
    requires n >= |s.starts| && forall j | 0 <= j < |s.log| :: Fits(s, s.log[j])
    ensures CallsBy(s.log, verb, n) == 0
    decreases |s.log|
  {
    if s.log != [] {
      var init := s.(log := s.log[..|s.log| - 1]);
      forall j | 0 <= j < |init.log| ensures Fits(init, init.log[j]) { assert Fits(s, s.log[j]); }
      NoCallsYet(init, verb, n);
      assert Fits(s, s.log[|s.log| - 1]);
    }
  }

  lemma QuietCalled(s: State, s': State)
    requires StartsCalled(s) && CallsFit(s) && Quiet(s, s')
    ensures StartsCalled(s')
  {
    NoCallsYet(s, OpenSession, |s.starts|);
    NoCallsYet(s, Credit, |s.starts|);
    if |s'.log| > |s.log| {
      assert s'.log == s.log + [s'.log[|s.log|]];
      CallsBySnoc(s.log, s'.log[|s.log|]);
    } else {
      assert s'.log == s.log;
    }
    forall n | 0 <= n < |s'.starts| ensures Called1(s', n) {
      if n < |s.starts| { assert Called1(s, n); }
    }
  }

  lemma AskCalled(s: State, id: Identity, bound: bool, paid: bool)
    requires StartsCalled(s) && CallsFit(s)
    ensures StartsCalled(Ask(s, id, bound, paid))
  {
    var s', m := Ask(s, id, bound, paid), |s.starts|;
    NoCallsYet(s, OpenSession, m);
    NoCallsYet(s, Credit, m);
    var e1, e2 := Called(OpenSession, Session(m), id.workId), Called(Credit, Session(m), id.workId);
    CallsBySnoc(s.log, e1);
    CallsBySnoc(s.log + [e1], e2);
    forall n | 0 <= n < |s'.starts| ensures Called1(s', n) {
      if n < |s.starts| { assert Called1(s, n); }
    }
  }

  lemma OtherStartCalled(s: State, step: StartStep)
    requires StartsCalled(s) && !step.SAsk?
    ensures StartsCalled(NextStart(s, step))
  {
    var s' := NextStart(s, step);
    CallsBySnoc(s.log, Wrote(step.n, Phase.Starting));
    CallsBySnoc(s.log, Cached(step.n));
    forall n | 0 <= n < |s'.starts| ensures Called1(s', n) { assert Called1(s, n); }
  }

  /** In every reachable state a start that was let through has opened its session with the broker once and
      credited its ticket once, and no start ever does either twice. */
  lemma {:induction false} StartsCallOnce(name: Name, steps: seq<Step>)
    ensures StartsCalled(Run(Initial(name), steps))
  {
    hide NextStart, NextIngest, NextRequest, NextEnd, StartsCalled, Inv;
    if steps == [] {
      NobodyCalled(name);
    } else {
      var s, step := Run(Initial(name), steps[..|steps| - 1]), steps[|steps| - 1];
      StartsCallOnce(name, steps[..|steps| - 1]);
      RunKeeps(name, steps[..|steps| - 1]);
      CallsFitIn(s);
      match step
      case Starts(a) => StartCalled(s, a);
      case Ingests(i) => IngestQuiet(s, i); QuietCalled(s, NextIngest(s, i));
      case Requests(r) => RequestQuiet(s, r); QuietCalled(s, NextRequest(s, r));
      case Ends(e) => EndQuiet(s, e); QuietCalled(s, NextEnd(s, e));
    }
  }

  lemma NobodyCalled(name: Name)
    ensures StartsCalled(Run(Initial(name), []))
  {
  }

  lemma CallsFitIn(s: State)
    requires Inv(s)
    ensures CallsFit(s)
  {
  }

  lemma StartCalled(s: State, step: StartStep)
    requires StartsCalled(s) && CallsFit(s)
    ensures StartsCalled(NextStart(s, step))
  {
    match step
    case SAsk(id, bound, paid) => AskCalled(s, id, bound, paid);
    case _ => OtherStartCalled(s, step);
  }

  /** A start is put before the broker as it asks, and is let through to the runner exactly if the broker opens
      the session and takes the ticket. */
  lemma AskedWhen(s: State, id: Identity, bound: bool, paid: bool)
    ensures var s', n := Next(s, Starts(SAsk(id, bound, paid))), |s.starts|;
      && |s'.starts| == n + 1 && s'.starts[n].id == id && s'.sh == s.sh
      && (s'.starts[n].stage.Paid? <==> bound && paid) && (s'.starts[n].stage.Refused? <==> !(bound && paid))
      && s'.log == s.log + (if bound then [Called(OpenSession, Session(n), id.workId)] else [])
                         + (if bound && paid then [Called(Credit, Session(n), id.workId)] else [])
  {
  }

  /** In every reachable state a start that was let through is registered, as pending, with its own identity in
      table and record, exactly if nobody holds the name and the record is written; a refused start changes
      neither. */
  lemma RegisteredWhen(name: Name, steps: seq<Step>, n: nat, saveOk: bool)
    requires var s := Run(Initial(name), steps); n < |s.starts| && s.starts[n].stage.Paid? && s.touch.None?
    ensures var s := Run(Initial(name), steps);
      var s', id := Next(s, Starts(SRegister(n, saveOk))), s.starts[n].id;
      && n < |s'.starts|
      && (s'.starts[n].stage.Registered? <==> s.sh.ctl.None? && saveOk)
      && (s'.starts[n].stage.Refused? <==> s.sh.ctl.Some? || !saveOk)
      && (s'.starts[n].stage.Refused? ==> s'.sh == s.sh)
      && (s'.starts[n].stage.Registered? ==>
            && s'.sh.entry == s.sh.entry && s'.sh.ctl.Some? && s'.sh.ctl.value.number == n && !s'.sh.ctl.value.running
            && s'.sh.ctl.value.id == id
            && s'.sh.record == Some(StreamRec(s.name, s.name, id.workerId, id.workId, id.sender, Phase.Starting)))
  {
    hide Run;
  }

  /** A running session's new phase gets into the record, if there is one and the write lands, and changes
      nothing else; a terminal phase and closing are never written this way. */
  lemma PhaseWritten(name: Name, steps: seq<Step>, phase: Phase, ok: bool)
    requires var s := Run(Initial(name), steps); s.ingest.Some? && s.ingest.value.place.Running? && s.sh.record.Some?
    ensures var s := Run(Initial(name), steps);
      var s' := Next(s, Ingests(SRunUpdate(phase, ok)));
      var lasting := phase != Phase.Closed && phase != Phase.EncoderFailed && phase != Phase.BalanceExhausted && phase != Phase.Closing;
      && s'.sh.record == Some(if ok && lasting then s.sh.record.value.(phase := phase) else s.sh.record.value)
      && s'.sh.entry == s.sh.entry && s'.sh.ctl == s.sh.ctl && s'.ingest == s.ingest
  {
    hide Run;
  }

  /** In every reachable state: a running session debits under its own work id if it has one and a sender, and
      not otherwise; a top-up whose ticket the broker takes is credited to what it found. */
  lemma CallsMade(name: Name, steps: seq<Step>, k: nat)
    ensures var s := Run(Initial(name), steps);
      && (s.ingest.Some? && s.ingest.value.place.Running? ==>
            var n := s.ingest.value.number;
            && n < |s.starts|
            && var id := s.starts[n].id;
              Next(s, Ingests(SRunDebit)).log == s.log +
                if id.workId != "" && id.sender != "" then [Called(Debit, Session(n), id.workId)] else [])
      && (k < |s.requests| && s.requests[k].at == Found && s.requests[k].kind == Topup ==>
            && s.requests[k].found.Some?
            && Next(s, Requests(STopupCredit(k, true))).log == s.log + [Called(Credit, Asker(k), s.requests[k].found.value.workId)]
            && Next(s, Requests(STopupCredit(k, false))).log == s.log)
  {
    hide Run, HandsOf;
    RunKeeps(name, steps);
    var s := Run(Initial(name), steps);
    if k < |s.requests| { assert Sound(s.name, |s.starts|, s.requests[k]); }
    assert s.log + [] == s.log;
  }

  /** A connect, section by section and in every reachable state: it takes on the session in the table, or a new
      one without identity; it writes that session's identity to the record as streaming, if the write lands;
      it puts that session in the table as running, whatever is there; and if it is refused it changes nothing. */
  lemma ConnectTells(name: Name, steps: seq<Step>, ok: bool)
    ensures var s := Run(Initial(name), steps);
      var read, saved, run, failed := Next(s, Ingests(SConnectRead)), Next(s, Ingests(SConnectSave(ok))), Next(s, Ingests(SConnectRun)), Next(s, Ingests(SConnectFail));
      && (s.ingest.None? && s.touch.None? ==>
            && read.sh == s.sh && read.ingest.Some? && read.ingest.value.place.Keyed? && read.ingest.value.number < |read.starts|
            && read.ingest.value.number == (if s.sh.ctl.Some? then s.sh.ctl.value.number else |s.starts|)
            && (s.sh.ctl.None? ==> read.starts[|s.starts|].id == Identity("", "", "")))
      && (s.ingest.Some? ==>
            var i := s.ingest.value;
            && i.number < |s.starts|
            && var id := s.starts[i.number].id;
              && (i.place.Keyed? ==>
                    && saved.ingest == Some(i.(place := Filed)) && saved.sh.ctl == s.sh.ctl && saved.sh.entry == s.sh.entry
                    && saved.sh.record == if ok then Some(StreamRec(s.name, s.name, id.workerId, id.workId, id.sender, Streaming)) else s.sh.record)
              && (i.place.Filed? && s.touch.None? ==>
                    && run.ingest == Some(i.(place := Running)) && run.sh.record == s.sh.record && run.sh.entry == s.sh.entry
                    && run.sh.ctl.Some? && run.sh.ctl.value.number == i.number && run.sh.ctl.value.running)
              && (i.place.Keyed? || i.place.Filed? ==> failed.ingest.None? && failed.sh == s.sh))
  {
    hide Run, HandsOf;
    RunKeeps(name, steps);
  }

  /** A stop, in every reachable state: a session nobody has connected to leaves the table and its record is
      closed, if the write lands; a running one stays, and its run is waited for. */
  lemma StopTells(name: Name, steps: seq<Step>, k: nat, ok: bool)
    requires var s := Run(Initial(name), steps); Asks(s, k, Read) && s.touch.None? && s.sh.ctl.Some?
    ensures var s := Run(Initial(name), steps);
      var s', c := Next(s, Ends(SEndStop(k, ok))), s.sh.ctl.value;
      && k < |s'.requests| && c.number < |s.starts|
      && (c.running ==> s'.sh == s.sh && s'.requests[k].at == Waiting && s'.requests[k].waited == Some(c.number))
      && (!c.running ==>
            var id := s.starts[c.number].id;
            && s'.requests[k].at == Stopped && s'.requests[k].waited == s.requests[k].waited
            && s'.sh.ctl.None? && s'.sh.entry == s.sh.entry
            && s'.sh.record == if ok then Some(StreamRec(s.name, s.name, id.workerId, id.workId, id.sender, Phase.Closed)) else s.sh.record)
  {
    hide Run, HandsOf;
    RunKeeps(name, steps);
    var s := Run(Initial(name), steps);
    assert Sound(s.name, |s.starts|, s.requests[k]);
  }
}
