/** How often a session is closed with the broker, over whole runs and any interleaving: once by its run, if
    it ever ran, and once by every end request that had read that nobody connected and got that far. */
module SessionCloses {
  import opened LiveTypes
  import opened Sessions
  import opened SessionSteps
  import opened SessionInvariant

  // ---- Counting closes in the log ----

  predicate IsClose(e: Event) {
    e.Called? && e.verb.CloseSession?
  }

  /** Closes made by one run or one request. */
  function ClosesBy(log: seq<Event>, who: Caller): nat {
    if log == [] then 0
    else
      var e := log[|log| - 1];
      ClosesBy(log[..|log| - 1], who) + if IsClose(e) && e.who == who then 1 else 0
  }

  /** Closes that name one work id, whoever makes them. */
  function ClosesOf(log: seq<Event>, workId: Name): nat {
    if log == [] then 0
    else
      var e := log[|log| - 1];
      ClosesOf(log[..|log| - 1], workId) + if IsClose(e) && e.workId == workId then 1 else 0
  }

  lemma ClosesBySnoc(log: seq<Event>, e: Event)
    ensures forall who :: ClosesBy(log + [e], who) == ClosesBy(log, who) + if IsClose(e) && e.who == who then 1 else 0
  {
    assert (log + [e])[..|log|] == log;
  }

  /** Nobody who is not there yet has called. */
  lemma {:induction false} NoClosesYet(s: State, who: Caller)
    requires forall j | 0 <= j < |s.log| :: Fits(s, s.log[j])
    requires match who case Session(n) => n >= |s.starts| case Asker(k) => k >= |s.requests|
    ensures ClosesBy(s.log, who) == 0
    decreases |s.log|
  {
    if s.log != [] {
      var init := s.(log := s.log[..|s.log| - 1]);
      forall j | 0 <= j < |init.log| ensures Fits(init, init.log[j]) { assert Fits(s, s.log[j]); }
      NoClosesYet(init, who);
      assert Fits(s, s.log[|s.log| - 1]);
    }
  }

  // ---- What every step keeps ----

  predicate Holds(i: Option<Ingest>, n: nat) {
    i.Some? && i.value.number == n
  }

  predicate Listed(c: Option<Ctl>, n: nat) {
    c.Some? && c.value.number == n
  }

  /** A paid session has been run, and the run has got past its close. */
  predicate ClosedByRun(s: State, n: nat)
    requires n < |s.starts|
  {
    Ran(n) in s.log && s.starts[n].id.Paid() && !(Holds(s.ingest, n) && s.ingest.value.place.Running?)
  }

  /** A session is closed by its run once the run has got there, and it runs once at most. */
  ghost predicate RunCounted(s: State, n: nat)
    requires n < |s.starts|
  {
    && ClosesBy(s.log, Session(n)) ==
         (if ClosedByRun(s, n) then 1 else 0)
    && (s.starts[n].stage.Paid? ==> Ran(n) !in s.log && !Holds(s.ingest, n) && !Listed(s.sh.ctl, n))
    && (Ran(n) in s.log && Listed(s.sh.ctl, n) ==> s.sh.ctl.value.running)
    && (Holds(s.ingest, n) ==> (Ran(n) in s.log <==> s.ingest.value.IsRun()))
  }

  /** An end request that got past its close, having read that nobody connected. */
  predicate ClosedItself(r: Request) {
    r.kind.End? && r.phase == Some(Phase.Starting) && (r.at.Dropping? || r.at.Done?)
  }

  ghost predicate AskCounted(s: State, k: nat, r: Request) {
    && ClosesBy(s.log, Asker(k)) == (if ClosedItself(r) then 1 else 0)
    && (r.waited.Some? ==> Ran(r.waited.value) in s.log && (!r.at.Waiting? ==> !Holds(s.ingest, r.waited.value)))
  }

  ghost predicate Counted(s: State) {
    && (forall n | 0 <= n < |s.starts| :: RunCounted(s, n))
    && (forall k | 0 <= k < |s.requests| :: AskCounted(s, k, s.requests[k]))
    && (forall n: nat | Ran(n) in s.log :: n < |s.starts|)
  }

  // ---- The parts steps are made of ----

  /** Only the table, the connection, the starts, the requests and two kinds of event matter. */
  ghost predicate SameCounts(s: State, s': State) {
    && s'.sh.ctl == s.sh.ctl && s'.ingest == s.ingest && s'.starts == s.starts && s'.requests == s.requests
    && (s'.log == s.log || exists e :: s'.log == s.log + [e] && !IsClose(e) && !e.Ran?)
  }

  lemma SameCountsKeep(s: State, s': State)
    requires Counted(s) && SameCounts(s, s')
    ensures Counted(s')
  {
    if s'.log != s.log {
      var e :| s'.log == s.log + [e] && !IsClose(e) && !e.Ran?;
      ClosesBySnoc(s.log, e);
    }
    forall n | 0 <= n < |s'.starts| ensures RunCounted(s', n) { assert RunCounted(s, n); }
    forall k | 0 <= k < |s'.requests| ensures AskCounted(s', k, s'.requests[k]) { assert AskCounted(s, k, s.requests[k]); }
  }

  lemma SaidCounted(s: State, e: Event)
    requires Counted(s) && !IsClose(e) && !e.Ran?
    ensures Counted(Say(s, e))
  {
    assert Say(s, e).log == s.log + [e];
    SameCountsKeep(s, Say(s, e));
  }

  lemma PutCounted(s: State, k: nat, r: Request)
    requires Counted(s) && k < |s.requests| && AskCounted(s, k, r)
    ensures Counted(Put(s, k, r))
  {
    var s' := Put(s, k, r);
    forall n | 0 <= n < |s'.starts| ensures RunCounted(s', n) { assert RunCounted(s, n); }
    forall j | 0 <= j < |s'.requests| ensures AskCounted(s', j, s'.requests[j]) {
      assert AskCounted(s, j, s.requests[j]);
    }
  }

  /** Moving a request that neither was nor becomes one that closed itself. */
  lemma GoCounted(s: State, k: nat, at: At)
    requires Counted(s) && k < |s.requests|
    requires ClosedItself(s.requests[k].(at := at)) <==> ClosedItself(s.requests[k])
    requires s.requests[k].waited.Some? ==>
      at.Waiting? || !s.requests[k].at.Waiting? || !Holds(s.ingest, s.requests[k].waited.value)
    ensures Counted(Go(s, k, at))
  {
    assert AskCounted(s, k, s.requests[k]);
    PutCounted(s, k, s.requests[k].(at := at));
  }

  lemma StageCounted(s: State, n: nat, stage: Stage)
    requires Counted(s) && n < |s.starts| && !stage.Paid?
    ensures Counted(SetStage(s, n, stage))
  {
    var s' := SetStage(s, n, stage);
    forall m | 0 <= m < |s'.starts| ensures RunCounted(s', m) { assert RunCounted(s, m); }
    forall k | 0 <= k < |s'.requests| ensures AskCounted(s', k, s'.requests[k]) { assert AskCounted(s, k, s.requests[k]); }
  }

  lemma NewStartCounted(s: State, x: Start)
    requires Counted(s) && Inv(s)
    ensures Counted(s.(starts := s.starts + [x]))
  {
    var s', n := s.(starts := s.starts + [x]), |s.starts|;
    NoClosesYet(s, Session(n));
    forall m | 0 <= m < |s'.starts| ensures RunCounted(s', m) {
      if m < n { assert RunCounted(s, m) && s'.starts[m] == s.starts[m]; }
    }
    forall k | 0 <= k < |s'.requests| ensures AskCounted(s', k, s'.requests[k]) { assert AskCounted(s, k, s.requests[k]); }
  }

  lemma EnterCounted(s: State, kind: Kind)
    requires Counted(s) && Inv(s)
    ensures Counted(Enter(s, kind))
  {
    var s', n := Enter(s, kind), |s.requests|;
    NoClosesYet(s, Asker(n));
    forall m | 0 <= m < |s'.starts| ensures RunCounted(s', m) { assert RunCounted(s, m); }
    forall k | 0 <= k < |s'.requests| ensures AskCounted(s', k, s'.requests[k]) {
      if k < n { assert AskCounted(s, k, s.requests[k]); }
    }
  }

  /** The table and the connection change, nothing runs or stops running by it. */
  lemma TableCounted(s: State, ctl: Option<Ctl>, ingest: Option<Ingest>, touch: Option<Touch>)
    requires Counted(s)
    requires forall n | 0 <= n < |s.starts| && s.starts[n].stage.Paid? :: !Listed(ctl, n) && !Holds(ingest, n)
    requires ctl.Some? && !ctl.value.running ==> Ran(ctl.value.number) !in s.log
    requires ingest.Some? ==> (Ran(ingest.value.number) in s.log <==> ingest.value.IsRun())
    requires ingest.Some? && ingest.value.place.Running? ==> ingest == s.ingest
    requires s.ingest.Some? && s.ingest.value.place.Running? ==> ingest == s.ingest
    requires ingest.Some? && !Holds(s.ingest, ingest.value.number) ==> Ran(ingest.value.number) !in s.log
    ensures Counted(SetTable(s, ctl, ingest, touch))
  {
    var s' := SetTable(s, ctl, ingest, touch);
    forall m | 0 <= m < |s'.starts| ensures RunCounted(s', m) { assert RunCounted(s, m); }
    forall k | 0 <= k < |s'.requests| ensures AskCounted(s', k, s'.requests[k]) { assert AskCounted(s, k, s.requests[k]); }
  }

  // ---- Every step keeps it ----

  lemma AskKeepsCount(s: State, id: Identity, bound: bool, paid: bool)
    requires Counted(s) && Inv(s)
    ensures Counted(Ask(s, id, bound, paid))
  {
    var n, x := |s.starts|, Start(id, if bound && paid then Paid else Refused);
    var s1 := s.(starts := s.starts + [x]);
    NewStartCounted(s, x);
    hide Counted, Inv;
    if bound {
      SaidCounted(s1, Called(OpenSession, Session(n), id.workId));
      if paid { SaidCounted(Say(s1, Called(OpenSession, Session(n), id.workId)), Called(Credit, Session(n), id.workId)); }
    }
  }

  lemma RegisterKeepsCount(s: State, n: nat, saveOk: bool)
    requires Counted(s)
    ensures Counted(DoRegister(s, n, saveOk))
  {
    if n < |s.starts| && s.starts[n].stage.Paid? && s.touch.None? {
      assert RunCounted(s, n);
      if Admits(s.sh, saveOk) {
        var id := s.starts[n].id;
        var r, s1 := RecordFor(s.name, id, Phase.Starting), SetStage(s, n, Registered);
        StageCounted(s, n, Registered);
        RegisterTable(s1, n);
        hide Counted;
        var s2 := SetTable(s1, Some(Ctl(n, id, r, false)), s1.ingest, s1.touch);
        SameRecord(s2, r, Wrote(n, Phase.Starting));
        assert DoRegister(s, n, saveOk) == Say(SetRecord(s2, r), Wrote(n, Phase.Starting));
      } else {
        StageCounted(s, n, Refused);
      }
    }
  }

  lemma RegisterTable(s: State, n: nat)
    requires Counted(s) && n < |s.starts| && !s.starts[n].stage.Paid? && Ran(n) !in s.log
    ensures var id := s.starts[n].id;
      Counted(SetTable(s, Some(Ctl(n, id, RecordFor(s.name, id, Phase.Starting), false)), s.ingest, s.touch))
  {
    var id := s.starts[n].id;
    var s' := SetTable(s, Some(Ctl(n, id, RecordFor(s.name, id, Phase.Starting), false)), s.ingest, s.touch);
    forall m | 0 <= m < |s'.starts| ensures RunCounted(s', m) { assert RunCounted(s, m); }
    forall k | 0 <= k < |s'.requests| ensures AskCounted(s', k, s'.requests[k]) { assert AskCounted(s, k, s.requests[k]); }
  }

  lemma SameRecord(s: State, r: StreamRec, e: Event)
    requires Counted(s) && !IsClose(e) && !e.Ran?
    ensures Counted(Say(SetRecord(s, r), e)) && Counted(SetRecord(s, r))
  {
    SameCountsKeep(s, SetRecord(s, r));
    SaidCounted(SetRecord(s, r), e);
  }

  lemma AnswerKeepsCount(s: State, n: nat)
    requires Counted(s)
    ensures Counted(DoAnswer(s, n))
  {
    if n < |s.starts| && s.starts[n].stage.Registered? {
      var s1 := s.(sh := Upsert(s.sh, InfoFor(s.name, s.starts[n].id)));
      SameCountsKeep(s, s1);
      hide Counted;
      SaidCounted(s1, Cached(n));
      StageCounted(Say(s1, Cached(n)), n, Answered);
      assert DoAnswer(s, n) == SetStage(Say(s1, Cached(n)), n, Answered);
    }
  }

  lemma ConnectReadKeepsCount(s: State)
    requires Counted(s) && Inv(s)
    ensures Counted(ConnectRead(s))
  {
    if s.ingest.None? && s.touch.None? {
      if s.sh.ctl.Some? {
        var c := s.sh.ctl.value;
        assert !c.running && RunCounted(s, c.number);
        assert forall n | 0 <= n < |s.starts| && s.starts[n].stage.Paid? :: RunCounted(s, n);
        var ingest := Some(Ingest(c.number, c.id, Keyed));
        TableCounted(s, s.sh.ctl, ingest, s.touch);
        assert ConnectRead(s) == SetTable(s, s.sh.ctl, ingest, s.touch);
      } else {
        var n := |s.starts|;
        var s1, ingest := s.(starts := s.starts + [Start(NoIdentity, Unasked)]), Some(Ingest(n, NoIdentity, Keyed));
        NewStartCounted(s, Start(NoIdentity, Unasked));
        assert Ran(n) !in s.log && forall m | 0 <= m < |s.starts| && s.starts[m].stage.Paid? :: RunCounted(s, m);
        TableCounted(s1, s1.sh.ctl, ingest, s1.touch);
        assert ConnectRead(s) == SetTable(s1, s1.sh.ctl, ingest, s1.touch);
      }
    }
  }

  lemma ConnectSaveKeepsCount(s: State, ok: bool)
    requires Counted(s) && Inv(s)
    ensures Counted(ConnectSave(s, ok))
  {
    if AtPlace(s, Keyed) {
      var i := s.ingest.value;
      assert RunCounted(s, i.number);
      var s1 := Move(s, Filed);
      TableFromTo(s, Filed);
      hide Counted, Inv;
      if ok {
        SameRecord(s1, RecordFor(s.name, i.id, Streaming), Wrote(i.number, Streaming));
        assert ConnectSave(s, ok) == Say(SetRecord(s1, RecordFor(s.name, i.id, Streaming)), Wrote(i.number, Streaming));
      } else {
        assert ConnectSave(s, ok) == s1;
      }
    }
  }

  /** Any move of a connection but into or out of running. */
  lemma TableFromTo(s: State, to: Place)
    requires Counted(s) && Inv(s) && s.ingest.Some? && !s.ingest.value.place.Running? && !to.Running?
    requires s.ingest.value.IsRun() <==> s.ingest.value.(place := to).IsRun()
    ensures Counted(Move(s, to))
  {
    var i := s.ingest.value;
    assert RunCounted(s, i.number);
    if s.sh.ctl.Some? { assert RunCounted(s, s.sh.ctl.value.number); }
    assert forall n | 0 <= n < |s.starts| && s.starts[n].stage.Paid? :: RunCounted(s, n);
    TableCounted(s, s.sh.ctl, Some(i.(place := to)), s.touch);
    assert Move(s, to) == SetTable(s, s.sh.ctl, Some(i.(place := to)), s.touch);
  }

  /** A session starts to run, for the first time. */
  lemma ConnectRunKeepsCount(s: State)
    requires Counted(s) && Inv(s)
    ensures Counted(ConnectRun(s))
  {
    if AtPlace(s, Filed) && s.touch.None? {
      var s', i := ConnectRun(s), s.ingest.value;
      assert RunCounted(s, i.number);
      ClosesBySnoc(s.log, Ran(i.number));
      forall m | 0 <= m < |s'.starts| ensures RunCounted(s', m) { assert RunCounted(s, m); }
      forall k | 0 <= k < |s'.requests| ensures AskCounted(s', k, s'.requests[k]) { assert AskCounted(s, k, s.requests[k]); }
    }
  }

  lemma ConnectFailKeepsCount(s: State)
    requires Counted(s) && Inv(s)
    ensures Counted(ConnectFail(s))
  {
    if AtPlace(s, Keyed) || AtPlace(s, Filed) {
      if s.sh.ctl.Some? { assert RunCounted(s, s.sh.ctl.value.number); }
      assert forall n | 0 <= n < |s.starts| && s.starts[n].stage.Paid? :: RunCounted(s, n);
      TableCounted(s, s.sh.ctl, None, s.touch);
      assert ConnectFail(s) == SetTable(s, s.sh.ctl, None, s.touch);
    }
  }

  lemma RunDebitKeepsCount(s: State)
    requires Counted(s)
    ensures Counted(RunDebit(s))
  {
    if AtPlace(s, Running) && s.ingest.value.id.Paid() {
      SaidCounted(s, Called(Debit, Session(s.ingest.value.number), s.ingest.value.id.workId));
    }
  }

  lemma RephaseKeepsCount(s: State, phase: Phase, ok: bool, said: bool)
    requires Counted(s)
    ensures Counted(SayIf(s.(sh := Rephase(s.sh, phase, ok)), said, Rephased(phase)))
  {
    var s1 := s.(sh := Rephase(s.sh, phase, ok));
    SameCountsKeep(s, s1);
    SaidCounted(s1, Rephased(phase));
  }

  lemma RunUpdateKeepsCount(s: State, phase: Phase, ok: bool)
    requires Counted(s)
    ensures Counted(RunUpdate(s, phase, ok))
  {
    hide Counted;
    RephaseKeepsCount(s, phase, ok, true);
  }

  /** The run closes with the broker: this is the only time it does. */
  lemma RunCloseKeepsCount(s: State)
    requires Counted(s) && Inv(s)
    ensures Counted(RunClose(s))
  {
    if AtPlace(s, Running) {
      var s', i := RunClose(s), s.ingest.value;
      assert RunCounted(s, i.number) && s.starts[i.number].id == i.id;
      ClosesBySnoc(s.log, Called(CloseSession, Session(i.number), i.id.workId));
      forall m | 0 <= m < |s'.starts| ensures RunCounted(s', m) { assert RunCounted(s, m); }
      forall k | 0 <= k < |s'.requests| ensures AskCounted(s', k, s'.requests[k]) { assert AskCounted(s, k, s.requests[k]); }
    }
  }

  lemma RunSaveKeepsCount(s: State, reason: Reason, ok: bool)
    requires Counted(s) && Inv(s)
    ensures Counted(RunSave(s, reason, ok))
  {
    if AtPlace(s, Settled) {
      TableFromTo(s, Saved);
      hide Counted, Inv, TerminalPhase;
      var s1 := Move(s, Saved);
      RephaseKeepsCount(s1, TerminalPhase(reason), ok, ok && s.sh.record.Some?);
      assert s1.(sh := Rephase(s1.sh, TerminalPhase(reason), ok)) == Move(s.(sh := Rephase(s.sh, TerminalPhase(reason), ok)), Saved);
    }
  }

  lemma RunLeaveKeepsCount(s: State)
    requires Counted(s)
    ensures Counted(RunLeave(s))
  {
    if AtPlace(s, Saved) && s.touch.None? {
      TableCounted(s, None, None, s.touch);
      assert RunLeave(s) == SetTable(s, None, None, s.touch);
    }
  }

  lemma DropKeepsCount(s: State)
    requires Counted(s)
    ensures Counted(Say(s.(sh := DropEntry(s.sh)), Uncached)) && Counted(s.(sh := DropEntry(s.sh)))
  {
    SameCountsKeep(s, s.(sh := DropEntry(s.sh)));
    SaidCounted(s.(sh := DropEntry(s.sh)), Uncached);
  }

  lemma RequestKeepsCount(s: State, step: RequestStep)
    requires Counted(s) && Inv(s)
    ensures Counted(NextRequest(s, step))
  {
    match step
    case SEnter(kind) => EnterCounted(s, kind);
    case SCheckPhase(k) => CheckPhaseKeepsCount(s, k);
    case SLookCache(k) => LookKeepsCount(s, k);
    case SLookRecord(k) => LookKeepsCount(s, k);
    case STopupCredit(k, ok) => TopupCreditKeepsCount(s, k, ok);
    case STouchRead(k) => TouchReadKeepsCount(s, k);
    case STouchSave(ok) => TouchSaveKeepsCount(s, ok);
    case SLoseEntry => DropKeepsCount(s);
  }

  lemma CheckPhaseKeepsCount(s: State, k: nat)
    requires Counted(s) && Inv(s)
    ensures Counted(CheckPhase(s, k))
  {
    if Asks(s, k, Entered) {
      assert Sound(s.name, |s.starts|, s.requests[k]);
      hide Counted, Inv;
      GoCounted(s, k, Checked);
      GoCounted(s, k, Turned);
      if !Active(s.sh) && s.sh.record.Some? {
        DropKeepsCount(Go(s, k, Turned));
        assert CheckPhase(s, k) == Say(Go(s, k, Turned).(sh := DropEntry(s.sh)), Uncached);
      } else if !Active(s.sh) {
        assert CheckPhase(s, k) == Go(s, k, Turned);
      }
    }
  }

  lemma LookKeepsCount(s: State, k: nat)
    requires Counted(s) && Inv(s)
    ensures Counted(LookCache(s, k)) && Counted(LookRecord(s, k))
  {
    if Asks(s, k, Checked) || Asks(s, k, Missed) {
      assert Sound(s.name, |s.starts|, s.requests[k]) && AskCounted(s, k, s.requests[k]);
      hide Counted, Inv;
      GoCounted(s, k, Missed);
      GoCounted(s, k, Turned);
      PutCounted(s, k, s.requests[k].(at := Found, found := s.sh.entry));
      if s.sh.record.Some? {
        PutCounted(s, k, s.requests[k].(at := Found, found := Some(InfoOf(s.sh.record.value))));
      }
    }
  }

  lemma TopupCreditKeepsCount(s: State, k: nat, ok: bool)
    requires Counted(s) && Inv(s)
    ensures Counted(TopupCredit(s, k, ok))
  {
    if Asks(s, k, Found) && s.requests[k].kind.Topup? && s.requests[k].found.Some? {
      assert Sound(s.name, |s.starts|, s.requests[k]);
      hide Counted, Inv;
      GoCounted(s, k, Credited);
      GoCounted(s, k, Failed);
      SaidCounted(Go(s, k, Credited), Called(Credit, Asker(k), s.requests[k].found.value.workId));
    }
  }

  lemma TouchReadKeepsCount(s: State, k: nat)
    requires Counted(s) && Inv(s)
    ensures Counted(TouchRead(s, k))
  {
    if Asks(s, k, Credited) && s.touch.None? {
      assert Sound(s.name, |s.starts|, s.requests[k]);
      hide HandsOf;
      GoCounted(s, k, Done);
      SameCountsKeep(Go(s, k, Done), TouchRead(s, k));
    }
  }

  lemma TouchSaveKeepsCount(s: State, ok: bool)
    requires Counted(s)
    ensures Counted(TouchSave(s, ok))
  {
    if s.touch.Some? {
      var t, s1 := s.touch.value, s.(touch := None);
      SameCountsKeep(s, s1);
      SameRecord(s1, t.rec, Wrote(t.author, t.rec.phase));
      assert ok ==> TouchSave(s, ok) == Say(SetRecord(s1, t.rec), Wrote(t.author, t.rec.phase));
    }
  }

  lemma EndReadKeepsCount(s: State, k: nat)
    requires Counted(s) && Inv(s)
    ensures Counted(EndRead(s, k))
  {
    if Asks(s, k, Found) && s.requests[k].kind.End? {
      assert Sound(s.name, |s.starts|, s.requests[k]) && AskCounted(s, k, s.requests[k]);
      hide Counted, Inv;
      GoCounted(s, k, Turned);
      if s.sh.record.Some? {
        PutCounted(s, k, s.requests[k].(at := Read, phase := Some(s.sh.record.value.phase)));
      }
    }
  }

  lemma RemoveKeepsCount(s: State, saveOk: bool)
    requires Counted(s) && Inv(s) && s.sh.ctl.Some? && !s.sh.ctl.value.running
    ensures Counted(SayIf(s.(sh := Remove(s.sh, saveOk)), saveOk, Wrote(s.sh.ctl.value.number, Phase.Closed)))
  {
    var c := s.sh.ctl.value;
    var s1 := SetTable(s, None, s.ingest, s.touch);
    assert s.ingest.Some? ==> RunCounted(s, s.ingest.value.number);
    assert forall n | 0 <= n < |s.starts| && s.starts[n].stage.Paid? :: RunCounted(s, n);
    TableCounted(s, None, s.ingest, s.touch);
    hide Counted, Inv;
    if saveOk {
      SameRecord(s1, c.stream.(phase := Phase.Closed), Wrote(c.number, Phase.Closed));
      assert s.(sh := Remove(s.sh, saveOk)) == SetRecord(s1, c.stream.(phase := Phase.Closed));
    } else {
      assert s.(sh := Remove(s.sh, saveOk)) == s1;
    }
  }

  lemma EndStopKeepsCount(s: State, k: nat, saveOk: bool)
    requires Counted(s) && Inv(s)
    ensures Counted(EndStop(s, k, saveOk))
  {
    if Asks(s, k, Read) && s.touch.None? {
      assert Sound(s.name, |s.starts|, s.requests[k]) && AskCounted(s, k, s.requests[k]);
      if s.sh.ctl.Some? && s.sh.ctl.value.running {
        assert RunCounted(s, s.sh.ctl.value.number);
        PutCounted(s, k, s.requests[k].(at := Waiting, waited := Some(s.sh.ctl.value.number)));
      } else {
        GoCounted(s, k, Stopped);
        GoKeeps(s, k, Stopped);
        hide Counted, Inv, Remove;
        if s.sh.ctl.Some? {
          RemoveKeepsCount(Go(s, k, Stopped), saveOk);
          assert Go(s, k, Stopped).(sh := Remove(s.sh, saveOk)) == Go(s.(sh := Remove(s.sh, saveOk)), k, Stopped);
        }
      }
    }
  }

  lemma EndAwakeKeepsCount(s: State, k: nat)
    requires Counted(s) && Inv(s)
    ensures Counted(EndAwake(s, k))
  {
    if Asks(s, k, Waiting) && !(s.ingest.Some? && s.requests[k].waited == Some(s.ingest.value.number)) {
      assert Sound(s.name, |s.starts|, s.requests[k]);
      hide Counted, Inv;
      GoCounted(s, k, Stopped);
    }
  }

  /** The request closes with the broker: this is the only time it does. */
  lemma EndCloseKeepsCount(s: State, k: nat, ok: bool)
    requires Counted(s) && Inv(s)
    ensures Counted(EndClose(s, k, ok))
  {
    if Asks(s, k, Stopped) && s.requests[k].found.Some? {
      assert Sound(s.name, |s.starts|, s.requests[k]) && AskCounted(s, k, s.requests[k]);
      var r := s.requests[k];
      if r.phase != Some(Phase.Starting) {
        GoCounted(s, k, Dropping);
      } else if !ok {
        GoCounted(s, k, Failed);
      } else {
        var s', e := EndClose(s, k, ok), Called(CloseSession, Asker(k), r.found.value.workId);
        ClosesBySnoc(s.log, e);
        forall m | 0 <= m < |s'.starts| ensures RunCounted(s', m) { assert RunCounted(s, m); }
        forall j | 0 <= j < |s'.requests| ensures AskCounted(s', j, s'.requests[j]) { assert AskCounted(s, j, s.requests[j]); }
      }
    }
  }

  lemma EndDropKeepsCount(s: State, k: nat)
    requires Counted(s) && Inv(s)
    ensures Counted(EndDrop(s, k))
  {
    if Asks(s, k, Dropping) {
      hide Counted, Inv;
      GoCounted(s, k, Done);
      DropKeepsCount(Go(s, k, Done));
      assert EndDrop(s, k) == Say(Go(s, k, Done).(sh := DropEntry(s.sh)), Uncached);
    }
  }

  lemma NextKeepsCount(s: State, step: Step)
    requires Counted(s) && Inv(s)
    ensures Counted(Next(s, step))
  {
    hide Counted, Inv, NextRequest, Ask, DoRegister, DoAnswer, ConnectRead, ConnectSave, ConnectRun, ConnectFail, RunDebit,
      RunUpdate, RunClose, RunSave, RunLeave, EndRead, EndStop, EndAwake, EndClose, EndDrop;
    match step
    case Starts(SAsk(id, bound, paid)) => AskKeepsCount(s, id, bound, paid);
    case Starts(SRegister(n, saveOk)) => RegisterKeepsCount(s, n, saveOk);
    case Starts(SAnswer(n)) => AnswerKeepsCount(s, n);
    case Ingests(SConnectRead) => ConnectReadKeepsCount(s);
    case Ingests(SConnectSave(ok)) => ConnectSaveKeepsCount(s, ok);
    case Ingests(SConnectRun) => ConnectRunKeepsCount(s);
    case Ingests(SConnectFail) => ConnectFailKeepsCount(s);
    case Ingests(SRunDebit) => RunDebitKeepsCount(s);
    case Ingests(SRunUpdate(phase, ok)) => RunUpdateKeepsCount(s, phase, ok);
    case Ingests(SRunClose) => RunCloseKeepsCount(s);
    case Ingests(SRunSave(reason, ok)) => RunSaveKeepsCount(s, reason, ok);
    case Ingests(SRunLeave) => RunLeaveKeepsCount(s);
    case Requests(r) => RequestKeepsCount(s, r);
    case Ends(SEndRead(k)) => EndReadKeepsCount(s, k);
    case Ends(SEndStop(k, saveOk)) => EndStopKeepsCount(s, k, saveOk);
    case Ends(SEndAwake(k)) => EndAwakeKeepsCount(s, k);
    case Ends(SEndClose(k, ok)) => EndCloseKeepsCount(s, k, ok);
    case Ends(SEndDrop(k)) => EndDropKeepsCount(s, k);
  }

  lemma {:induction false} RunKeepsCount(name: Name, steps: seq<Step>)
    ensures Counted(Run(Initial(name), steps))
  {
    hide Next, Inv;
    if steps != [] {
      hide Counted;
      var init := steps[..|steps| - 1];
      RunKeepsCount(name, init);
      RunKeeps(name, init);
      NextKeepsCount(Run(Initial(name), init), steps[|steps| - 1]);
    }
  }

  // ---- What follows for sessions and requests ----

  /** The run of a session closes it with the broker exactly once, whatever requests do meanwhile: not before
      the run has got there, not again, and not at all if nobody ever connected or nobody pays. */
  lemma RunClosesOnce(name: Name, steps: seq<Step>, n: nat)
    requires n < |Run(Initial(name), steps).starts|
    ensures var s := Run(Initial(name), steps);
      ClosesBy(s.log, Session(n)) ==
        if Ran(n) in s.log && s.starts[n].id.workId != "" && s.starts[n].id.sender != ""
           && !(Holds(s.ingest, n) && s.ingest.value.place.Running?) then 1 else 0
  {
    hide Run;
    RunKeepsCount(name, steps);
    assert RunCounted(Run(Initial(name), steps), n);
  }

  /** Closes made by an end request and by the run it waited for. */
  function ClosesAround(s: State, k: nat): nat
    requires k < |s.requests|
  {
    ClosesBy(s.log, Asker(k)) + if s.requests[k].waited.Some? then ClosesBy(s.log, Session(s.requests[k].waited.value)) else 0
  }

  /** An end request that is through has made for exactly zero, one or two closes: one if it read that nobody
      had connected, and one if it found a paid session running when it stopped it. */
  lemma EndRequestCloses(name: Name, steps: seq<Step>, k: nat)
    requires var s := Run(Initial(name), steps);
      k < |s.requests| && s.requests[k].kind.End? && (s.requests[k].at.Dropping? || s.requests[k].at.Done?)
    ensures var s := Run(Initial(name), steps);
      var r := s.requests[k];
      && (r.waited.Some? ==> r.waited.value < |s.starts|)
      && ClosesAround(s, k) ==
           (if r.phase == Some(Phase.Starting) then 1 else 0)
           + (if r.waited.Some? && s.starts[r.waited.value].id.workId != "" && s.starts[r.waited.value].id.sender != "" then 1 else 0)
  {
    hide Run;
    RunKeeps(name, steps);
    RunKeepsCount(name, steps);
    var s := Run(Initial(name), steps);
    var r := s.requests[k];
    assert AskCounted(s, k, r) && Sound(s.name, |s.starts|, r);
    if r.waited.Some? { assert RunCounted(s, r.waited.value); }
  }

  /** What an end request reads is the phase last written to the record. */
  lemma EndReadsLastPhase(name: Name, steps: seq<Step>, k: nat)
    requires var s := Run(Initial(name), steps); Asks(s, k, Found) && s.requests[k].kind.End?
    ensures var s := Run(Initial(name), steps);
      var r, h := Next(s, Ends(SEndRead(k))).requests[k], HandsOf(s.log);
      if h.record.Some? then r.at.Read? && r.phase == Some(h.record.value.phase) else r.at.Turned?
  {
    hide Run, HandsOf;
    RunKeeps(name, steps);
  }

  /** Finished end requests that closed, with a given work id. */
  function EndsFor(rs: seq<Request>, workId: Name): nat {
    if rs == [] then 0
    else
      var r := rs[|rs| - 1];
      EndsFor(rs[..|rs| - 1], workId) + if ClosedItself(r) && r.found.Some? && r.found.value.workId == workId then 1 else 0
  }

  /** Closes with a given work id made by requests, request by request. */
  function AskSum(log: seq<Event>, rs: seq<Request>, workId: Name): nat {
    if rs == [] then 0
    else
      var k, r := |rs| - 1, rs[|rs| - 1];
      AskSum(log, rs[..k], workId) + if r.found.Some? && r.found.value.workId == workId then ClosesBy(log, Asker(k)) else 0
  }

  lemma {:induction false} AskSumSnoc(log: seq<Event>, e: Event, rs: seq<Request>, w: Name)
    ensures AskSum(log + [e], rs, w) == AskSum(log, rs, w)
      + if IsClose(e) && e.who.Asker? && e.who.request < |rs| && rs[e.who.request].found.Some?
           && rs[e.who.request].found.value.workId == w then 1 else 0
  {
    if rs != [] {
      AskSumSnoc(log, e, rs[..|rs| - 1], w);
      ClosesBySnoc(log, e);
    }
  }

  lemma {:induction false} AskSumNone(rs: seq<Request>, w: Name)
    ensures AskSum([], rs, w) == 0
  {
    if rs != [] { AskSumNone(rs[..|rs| - 1], w); }
  }

  lemma {:induction false} AskSumIsEnds(s: State, n: nat, w: Name)
    requires Counted(s) && n <= |s.requests|
    ensures AskSum(s.log, s.requests[..n], w) == EndsFor(s.requests[..n], w)
  {
    if n > 0 {
      AskSumIsEnds(s, n - 1, w);
      assert s.requests[..n][..n - 1] == s.requests[..n - 1];
      assert AskCounted(s, n - 1, s.requests[n - 1]);
    }
  }

  /** Closes with a given work id made by runs, session by session. */
  function RunSum(log: seq<Event>, starts: seq<Start>, workId: Name): nat {
    if starts == [] then 0
    else
      var n := |starts| - 1;
      RunSum(log, starts[..n], workId) + if starts[n].id.workId == workId then ClosesBy(log, Session(n)) else 0
  }

  lemma {:induction false} RunSumSnoc(log: seq<Event>, e: Event, starts: seq<Start>, w: Name)
    ensures RunSum(log + [e], starts, w) == RunSum(log, starts, w)
      + if IsClose(e) && e.who.Session? && e.who.number < |starts| && starts[e.who.number].id.workId == w then 1 else 0
  {
    if starts != [] {
      RunSumSnoc(log, e, starts[..|starts| - 1], w);
      ClosesBySnoc(log, e);
    }
  }

  lemma {:induction false} RunSumNone(starts: seq<Start>, w: Name)
    ensures RunSum([], starts, w) == 0
  {
    if starts != [] { RunSumNone(starts[..|starts| - 1], w); }
  }

  /** Every close that names a work id is made by the run of a session that has it, or by a request. */
  lemma {:induction false} ClosesSplit(s: State, w: Name)
    requires forall j | 0 <= j < |s.log| :: Fits(s, s.log[j])
    ensures ClosesOf(s.log, w) == RunSum(s.log, s.starts, w) + AskSum(s.log, s.requests, w)
    decreases |s.log|
  {
    if s.log == [] {
      AskSumNone(s.requests, w);
      RunSumNone(s.starts, w);
    } else {
      var init, e := s.log[..|s.log| - 1], s.log[|s.log| - 1];
      var s0 := s.(log := init);
      forall j | 0 <= j < |init| ensures Fits(s0, init[j]) { assert Fits(s, s.log[j]); }
      ClosesSplit(s0, w);
      assert s.log == init + [e] && Fits(s, e);
      AskSumSnoc(init, e, s.requests, w);
      RunSumSnoc(init, e, s.starts, w);
    }
  }

  /** Sessions among the first `n` with a given work id whose run has got to its close. */
  function RunsFor(s: State, n: nat, workId: Name): nat
    requires n <= |s.starts|
  {
    if n == 0 then 0
    else RunsFor(s, n - 1, workId) + if s.starts[n - 1].id.workId == workId && ClosedByRun(s, n - 1) then 1 else 0
  }

  lemma {:induction false} RunSumIsRuns(s: State, n: nat, w: Name)
    requires Counted(s) && n <= |s.starts|
    ensures RunSum(s.log, s.starts[..n], w) == RunsFor(s, n, w)
  {
    if n > 0 {
      RunSumIsRuns(s, n - 1, w);
      assert s.starts[..n][..n - 1] == s.starts[..n - 1];
      assert RunCounted(s, n - 1);
    }
  }

  /** Closes per work id, over whole runs: the broker is asked to close it once for every session with that
      work id whose run has got there, and once for every end request that found it, read that nobody had
      connected, and was not refused by the broker. It is never closed if there was neither. */
  lemma SessionClosedTimes(name: Name, steps: seq<Step>, w: Name)
    ensures var s := Run(Initial(name), steps);
      ClosesOf(s.log, w) == RunsFor(s, |s.starts|, w) + EndsFor(s.requests, w)
  {
    hide Run;
    RunKeeps(name, steps);
    RunKeepsCount(name, steps);
    var s := Run(Initial(name), steps);
    ClosesSplit(s, w);
    AskSumIsEnds(s, |s.requests|, w);
    RunSumIsRuns(s, |s.starts|, w);
    assert s.requests[..|s.requests|] == s.requests && s.starts[..|s.starts|] == s.starts;
  }
}
