/** What every step of every interleaving keeps: numbers stand for identities, the cache entry and the record
    say what their last author wrote, and every call to the broker names the work id of whoever makes it. */
module SessionInvariant {
  import opened LiveTypes
  import opened Sessions
  import opened SessionSteps

  // ---- What every step keeps ----

  /** Numbers stand for the identities they were given. */
  ghost predicate Numbered(s: State) {
    && (s.sh.ctl.Some? ==>
          var c := s.sh.ctl.value;
          && c.number < |s.starts| && c.id == s.starts[c.number].id
          && c.stream == RecordFor(s.name, c.id, if c.running then Streaming else Phase.Starting))
    && (s.ingest.Some? ==> var i := s.ingest.value; i.number < |s.starts| && i.id == s.starts[i.number].id)
    && (s.touch.Some? ==>
          var t := s.touch.value;
          t.author < |s.starts| && t.rec == RecordFor(s.name, s.starts[t.author].id, t.rec.phase))
  }

  /** The cache entry and the record say what their last author wrote. */
  ghost predicate Authored(s: State) {
    var h := HandsOf(s.log);
    && (h.entry.Some? ==> h.entry.value < |s.starts|)
    && (h.record.Some? ==> h.record.value.author < |s.starts|)
    && s.sh.entry == (if h.entry.Some? then Some(InfoFor(s.name, s.starts[h.entry.value].id)) else None)
    && s.sh.record == (if h.record.Some?
                       then Some(RecordFor(s.name, s.starts[h.record.value.author].id, h.record.value.phase)) else None)
  }

  /** Exactly the session in the table is run, while one is. */
  ghost predicate RunsInTable(s: State) {
    && (s.ingest.Some? && s.ingest.value.IsRun() ==>
          s.sh.ctl.Some? && s.sh.ctl.value.running && s.sh.ctl.value.number == s.ingest.value.number)
    && (s.sh.ctl.Some? && s.sh.ctl.value.running ==>
          s.ingest.Some? && s.ingest.value.IsRun() && s.ingest.value.number == s.sh.ctl.value.number)
  }

  /** A call names the work id of the session that makes it, or the one the request found. */
  ghost predicate Fits(s: State, e: Event) {
    e.Called? ==>
      match e.who
      case Session(n) => n < |s.starts| && e.workId == s.starts[n].id.workId
      case Asker(k) => k < |s.requests| && s.requests[k].found.Some? && e.workId == s.requests[k].found.value.workId
  }

  ghost predicate CallsFit(s: State) {
    forall j | 0 <= j < |s.log| :: Fits(s, s.log[j])
  }

  /** Past its lookup a request has found something; an end request keeps what it read and waited for. */
  ghost predicate Sound(name: Name, starts: nat, r: Request) {
    && (r.at.Entered? || r.at.Checked? || r.at.Missed? ==> r.found.None?)
    && (r.found.None? ==> r.at.Entered? || r.at.Checked? || r.at.Missed? || r.at.Turned?)
    && (r.found.Some? ==> r.found.value.streamId == name)
    && (r.at.Credited? ==> r.kind.Topup?)
    && (r.at.Read? || r.at.Waiting? || r.at.Stopped? || r.at.Dropping? ==> r.kind.End? && r.phase.Some?)
    && (r.at.Waiting? ==> r.waited.Some?)
    && (r.waited.Some? ==> r.waited.value < starts && r.kind.End?)
    && (r.waited.Some? ==> r.at.Waiting? || r.at.Stopped? || r.at.Dropping? || r.at.Done? || r.at.Failed?)
  }

  ghost predicate RequestsSound(s: State) {
    forall k | 0 <= k < |s.requests| :: Sound(s.name, |s.starts|, s.requests[k])
  }

  ghost predicate Inv(s: State) {
    Numbered(s) && Authored(s) && RunsInTable(s) && RequestsSound(s) && CallsFit(s)
  }

  lemma HandsSnoc(log: seq<Event>, e: Event)
    ensures HandsOf(log + [e]) == Handle(HandsOf(log), e)
  {
    assert (log + [e])[..|log|] == log;
  }

  // ---- The parts steps are made of ----

  lemma FitsSame(s: State, s': State)
    requires CallsFit(s) && s'.log == s.log && s'.requests == s.requests
    requires |s.starts| <= |s'.starts| && forall n | 0 <= n < |s.starts| :: s'.starts[n].id == s.starts[n].id
    ensures CallsFit(s')
  {
    forall j | 0 <= j < |s.log| ensures Fits(s', s'.log[j]) { assert Fits(s, s.log[j]); }
  }

  lemma FitsSaid(s: State, e: Event)
    requires CallsFit(s) && Fits(s, e)
    ensures CallsFit(Say(s, e))
  {
    var s' := Say(s, e);
    forall j | 0 <= j < |s'.log| ensures Fits(s', s'.log[j]) {
      assert j < |s.log| ==> s'.log[j] == s.log[j] && Fits(s, s.log[j]);
    }
  }

  lemma CallKeeps(s: State, verb: Verb, who: Caller, workId: Name)
    requires Inv(s) && Fits(s, Called(verb, who, workId))
    ensures Inv(Say(s, Called(verb, who, workId)))
  {
    HandsSnoc(s.log, Called(verb, who, workId));
    FitsSaid(s, Called(verb, who, workId));
    hide HandsOf, CallsFit, Fits, Sound;
  }

  lemma RanKeeps(s: State, n: nat)
    requires Inv(s)
    ensures Inv(Say(s, Ran(n)))
  {
    HandsSnoc(s.log, Ran(n));
    FitsSaid(s, Ran(n));
    hide HandsOf, CallsFit, Fits, Sound;
  }

  lemma PutKeeps(s: State, k: nat, r: Request)
    requires Inv(s) && k < |s.requests| && Sound(s.name, |s.starts|, r)
    requires s.requests[k].found.Some? ==> r.found == s.requests[k].found
    ensures Inv(Put(s, k, r))
  {
    hide HandsOf, Sound;
    var s' := Put(s, k, r);
    forall j | 0 <= j < |s.log| ensures Fits(s', s'.log[j]) { assert Fits(s, s.log[j]); }
  }

  lemma EnterKeeps(s: State, kind: Kind)
    requires Inv(s)
    ensures Inv(Enter(s, kind))
  {
    hide HandsOf;
    var s' := Enter(s, kind);
    forall j | 0 <= j < |s.log| ensures Fits(s', s'.log[j]) { assert Fits(s, s.log[j]); }
  }

  lemma StageKeeps(s: State, n: nat, stage: Stage)
    requires Inv(s) && n < |s.starts|
    ensures Inv(SetStage(s, n, stage))
  {
    FitsSame(s, SetStage(s, n, stage));
    hide HandsOf, CallsFit, Sound;
  }

  lemma NewStartKeeps(s: State, x: Start)
    requires Inv(s)
    ensures Inv(s.(starts := s.starts + [x]))
  {
    var s' := s.(starts := s.starts + [x]);
    FitsSame(s, s');
    hide HandsOf, CallsFit;
    assert forall n | 0 <= n < |s.starts| :: s'.starts[n] == s.starts[n];
    forall k | 0 <= k < |s.requests| ensures Sound(s'.name, |s'.starts|, s'.requests[k]) {
      assert Sound(s.name, |s.starts|, s.requests[k]);
    }
  }

  /** A start writes its identity to the cache. */
  lemma CachedKeeps(s: State, n: nat)
    requires Inv(s) && n < |s.starts|
    ensures Inv(Say(s.(sh := Upsert(s.sh, InfoFor(s.name, s.starts[n].id))), Cached(n)))
  {
    var s1 := s.(sh := Upsert(s.sh, InfoFor(s.name, s.starts[n].id)));
    HandsSnoc(s.log, Cached(n));
    FitsSame(s, s1);
    FitsSaid(s1, Cached(n));
    hide HandsOf, CallsFit, Fits, Sound;
  }

  lemma UncachedKeeps(s: State)
    requires Inv(s)
    ensures Inv(Say(s.(sh := DropEntry(s.sh)), Uncached))
  {
    var s1 := s.(sh := DropEntry(s.sh));
    HandsSnoc(s.log, Uncached);
    FitsSame(s, s1);
    FitsSaid(s1, Uncached);
    hide HandsOf, CallsFit, Fits, Sound;
  }

  function SetRecord(s: State, r: StreamRec): State {
    s.(sh := s.sh.(record := Some(r)))
  }

  /** The record is written with the identity of a session. */
  lemma WroteKeeps(s: State, n: nat, phase: Phase)
    requires Inv(s) && n < |s.starts|
    ensures Inv(Say(SetRecord(s, RecordFor(s.name, s.starts[n].id, phase)), Wrote(n, phase)))
  {
    var s1 := SetRecord(s, RecordFor(s.name, s.starts[n].id, phase));
    HandsSnoc(s.log, Wrote(n, phase));
    FitsSame(s, s1);
    FitsSaid(s1, Wrote(n, phase));
    hide HandsOf, CallsFit, Fits, Sound;
  }

  lemma RephasedKeeps(s: State, phase: Phase)
    requires Inv(s) && s.sh.record.Some?
    ensures Inv(Say(SetRecord(s, s.sh.record.value.(phase := phase)), Rephased(phase)))
  {
    var s1 := SetRecord(s, s.sh.record.value.(phase := phase));
    HandsSnoc(s.log, Rephased(phase));
    FitsSame(s, s1);
    FitsSaid(s1, Rephased(phase));
    hide HandsOf, CallsFit, Fits, Sound;
  }

  function SetTable(s: State, ctl: Option<Ctl>, ingest: Option<Ingest>, touch: Option<Touch>): State {
    s.(sh := s.sh.(ctl := ctl), ingest := ingest, touch := touch)
  }

  /** The table, the connection and the lock change together. */
  lemma TableKeeps(s: State, ctl: Option<Ctl>, ingest: Option<Ingest>, touch: Option<Touch>)
    requires Inv(s) && Numbered(SetTable(s, ctl, ingest, touch)) && RunsInTable(SetTable(s, ctl, ingest, touch))
    ensures Inv(SetTable(s, ctl, ingest, touch))
  {
    FitsSame(s, SetTable(s, ctl, ingest, touch));
    hide HandsOf, CallsFit, Fits, Sound, Numbered, RunsInTable;
  }

  // ---- Every step keeps it ----

  lemma AskKeeps(s: State, id: Identity, bound: bool, paid: bool)
    requires Inv(s)
    ensures Inv(Ask(s, id, bound, paid))
  {
    hide Inv;
    var n, x := |s.starts|, Start(id, if bound && paid then Paid else Refused);
    var s1 := s.(starts := s.starts + [x]);
    NewStartKeeps(s, x);
    assert s1.starts[n] == x;
    if bound {
      CallKeeps(s1, OpenSession, Session(n), id.workId);
      if paid { CallKeeps(Say(s1, Called(OpenSession, Session(n), id.workId)), Credit, Session(n), id.workId); }
    }
  }

  lemma RegisterKeeps(s: State, n: nat, saveOk: bool)
    requires Inv(s)
    ensures Inv(DoRegister(s, n, saveOk))
  {
    if n < |s.starts| && s.starts[n].stage.Paid? && s.touch.None? {
      if Admits(s.sh, saveOk) {
        var id := s.starts[n].id;
        var s1 := Say(SetRecord(s, RecordFor(s.name, id, Phase.Starting)), Wrote(n, Phase.Starting));
        WroteKeeps(s, n, Phase.Starting);
        var ctl := Some(Ctl(n, id, RecordFor(s.name, id, Phase.Starting), false));
        TableKeeps(s1, ctl, s1.ingest, s1.touch);
        hide Inv;
        var s2 := SetTable(s1, ctl, s1.ingest, s1.touch);
        StageKeeps(s2, n, Registered);
        assert DoRegister(s, n, saveOk) == SetStage(s2, n, Registered);
      } else {
        StageKeeps(s, n, Refused);
      }
    }
  }

  lemma AnswerKeeps(s: State, n: nat)
    requires Inv(s)
    ensures Inv(DoAnswer(s, n))
  {
    hide Inv;
    if n < |s.starts| && s.starts[n].stage.Registered? {
      CachedKeeps(s, n);
      var s1 := Say(s.(sh := Upsert(s.sh, InfoFor(s.name, s.starts[n].id))), Cached(n));
      StageKeeps(s1, n, Answered);
      assert DoAnswer(s, n) == SetStage(s1, n, Answered);
    }
  }

  lemma ConnectReadKeeps(s: State)
    requires Inv(s)
    ensures Inv(ConnectRead(s))
  {
    if s.ingest.None? && s.touch.None? {
      if s.sh.ctl.Some? {
        var ingest := Some(Ingest(s.sh.ctl.value.number, s.sh.ctl.value.id, Keyed));
        TableKeeps(s, s.sh.ctl, ingest, s.touch);
        hide Inv;
        assert ConnectRead(s) == SetTable(s, s.sh.ctl, ingest, s.touch);
      } else {
        var s1, ingest := s.(starts := s.starts + [Start(NoIdentity, Unasked)]), Some(Ingest(|s.starts|, NoIdentity, Keyed));
        NewStartKeeps(s, Start(NoIdentity, Unasked));
        TableKeeps(s1, s1.sh.ctl, ingest, s1.touch);
        hide Inv;
        assert ConnectRead(s) == SetTable(s1, s1.sh.ctl, ingest, s1.touch);
      }
    }
  }

  lemma MoveKeeps(s: State, to: Place)
    requires Inv(s) && s.ingest.Some?
    requires s.ingest.value.IsRun() <==> s.ingest.value.(place := to).IsRun()
    ensures Inv(Move(s, to))
  {
    TableKeeps(s, s.sh.ctl, Some(s.ingest.value.(place := to)), s.touch);
    hide Inv;
    assert Move(s, to) == SetTable(s, s.sh.ctl, Some(s.ingest.value.(place := to)), s.touch);
  }

  lemma ConnectSaveKeeps(s: State, ok: bool)
    requires Inv(s)
    ensures Inv(ConnectSave(s, ok))
  {
    if AtPlace(s, Keyed) {
      var i := s.ingest.value;
      assert i.number < |s.starts| && i.id == s.starts[i.number].id;
      hide Inv;
      MoveKeeps(s, Filed);
      if ok {
        WroteKeeps(Move(s, Filed), i.number, Streaming);
        assert ConnectSave(s, ok) == Say(SetRecord(Move(s, Filed), RecordFor(s.name, i.id, Streaming)), Wrote(i.number, Streaming));
      } else {
        assert ConnectSave(s, ok) == Move(s, Filed);
      }
    }
  }

  lemma ConnectRunKeeps(s: State)
    requires Inv(s)
    ensures Inv(ConnectRun(s))
  {
    if AtPlace(s, Filed) && s.touch.None? {
      var i := s.ingest.value;
      var ctl, ingest := Some(Ctl(i.number, i.id, RecordFor(s.name, i.id, Streaming), true)), Some(i.(place := Running));
      TableKeeps(s, ctl, ingest, s.touch);
      hide Inv;
      RanKeeps(SetTable(s, ctl, ingest, s.touch), i.number);
      assert ConnectRun(s) == Say(SetTable(s, ctl, ingest, s.touch), Ran(i.number));
    }
  }

  lemma ConnectFailKeeps(s: State)
    requires Inv(s)
    ensures Inv(ConnectFail(s))
  {
    if AtPlace(s, Keyed) || AtPlace(s, Filed) {
      TableKeeps(s, s.sh.ctl, None, s.touch);
      hide Inv;
      assert ConnectFail(s) == SetTable(s, s.sh.ctl, None, s.touch);
    }
  }

  lemma RunDebitKeeps(s: State)
    requires Inv(s)
    ensures Inv(RunDebit(s))
  {
    if AtPlace(s, Running) && s.ingest.value.id.Paid() {
      CallKeeps(s, Debit, Session(s.ingest.value.number), s.ingest.value.id.workId);
    }
  }

  lemma RunUpdateKeeps(s: State, phase: Phase, ok: bool)
    requires Inv(s)
    ensures Inv(RunUpdate(s, phase, ok))
  {
    hide Inv;
    if ok && s.sh.record.Some? {
      RephasedKeeps(s, phase);
      assert s.(sh := Rephase(s.sh, phase, ok)) == SetRecord(s, s.sh.record.value.(phase := phase));
    }
  }

  lemma RunCloseKeeps(s: State)
    requires Inv(s)
    ensures Inv(RunClose(s))
  {
    if AtPlace(s, Running) {
      var i := s.ingest.value;
      MoveKeeps(s, Settled);
      if i.id.Paid() {
        CallKeeps(Move(s, Settled), CloseSession, Session(i.number), i.id.workId);
      }
    }
  }

  lemma RunSaveKeeps(s: State, reason: Reason, ok: bool)
    requires Inv(s)
    ensures Inv(RunSave(s, reason, ok))
  {
    hide Inv, TerminalPhase;
    if AtPlace(s, Settled) {
      var s1, phase := Move(s, Saved), TerminalPhase(reason);
      MoveKeeps(s, Saved);
      if ok && s.sh.record.Some? {
        RephasedKeeps(s1, phase);
        assert RunSave(s, reason, ok) == Say(SetRecord(s1, s1.sh.record.value.(phase := phase)), Rephased(phase));
      } else {
        assert RunSave(s, reason, ok) == s1;
      }
    }
  }

  lemma RunLeaveKeeps(s: State)
    requires Inv(s)
    ensures Inv(RunLeave(s))
  {
    if AtPlace(s, Saved) && s.touch.None? {
      TableKeeps(s, None, None, s.touch);
      hide Inv;
      assert RunLeave(s) == SetTable(s, None, None, s.touch);
    }
  }

  lemma GoKeeps(s: State, k: nat, at: At)
    requires Inv(s) && k < |s.requests| && Sound(s.name, |s.starts|, s.requests[k].(at := at))
    ensures Inv(Go(s, k, at))
  {
    hide Inv;
    PutKeeps(s, k, s.requests[k].(at := at));
  }

  lemma CheckPhaseKeeps(s: State, k: nat)
    requires Inv(s)
    ensures Inv(CheckPhase(s, k))
  {
    if Asks(s, k, Entered) {
      assert Sound(s.name, |s.starts|, s.requests[k]);
      hide Inv;
      if Active(s.sh) {
        GoKeeps(s, k, Checked);
      } else {
        GoKeeps(s, k, Turned);
        if s.sh.record.Some? {
          UncachedKeeps(Go(s, k, Turned));
          assert CheckPhase(s, k) == Say(Go(s, k, Turned).(sh := DropEntry(s.sh)), Uncached);
        } else {
          assert CheckPhase(s, k) == Go(s, k, Turned);
        }
      }
    }
  }

  lemma LookCacheKeeps(s: State, k: nat)
    requires Inv(s)
    ensures Inv(LookCache(s, k))
  {
    if Asks(s, k, Checked) {
      assert Sound(s.name, |s.starts|, s.requests[k]);
      assert s.sh.entry.Some? ==> s.sh.entry.value.streamId == s.name;
      hide Inv;
      if s.sh.entry.Some? {
        PutKeeps(s, k, s.requests[k].(at := Found, found := s.sh.entry));
      } else {
        GoKeeps(s, k, Missed);
      }
    }
  }

  lemma LookRecordKeeps(s: State, k: nat)
    requires Inv(s)
    ensures Inv(LookRecord(s, k))
  {
    if Asks(s, k, Missed) {
      assert Sound(s.name, |s.starts|, s.requests[k]);
      assert s.sh.record.Some? ==> InfoOf(s.sh.record.value).streamId == s.name;
      hide Inv;
      if s.sh.record.Some? {
        PutKeeps(s, k, s.requests[k].(at := Found, found := Some(InfoOf(s.sh.record.value))));
      } else {
        GoKeeps(s, k, Turned);
      }
    }
  }

  lemma TopupCreditKeeps(s: State, k: nat, ok: bool)
    requires Inv(s)
    ensures Inv(TopupCredit(s, k, ok))
  {
    if Asks(s, k, Found) && s.requests[k].kind.Topup? && s.requests[k].found.Some? {
      assert Sound(s.name, |s.starts|, s.requests[k]);
      hide Inv;
      if ok {
        GoKeeps(s, k, Credited);
        CallKeeps(Go(s, k, Credited), Credit, Asker(k), s.requests[k].found.value.workId);
      } else {
        GoKeeps(s, k, Failed);
      }
    }
  }

  lemma TouchReadKeeps(s: State, k: nat)
    requires Inv(s)
    ensures Inv(TouchRead(s, k))
  {
    if Asks(s, k, Credited) && s.touch.None? {
      assert Sound(s.name, |s.starts|, s.requests[k]);
      hide HandsOf;
      var h, s1 := HandsOf(s.log), Go(s, k, Done);
      GoKeeps(s, k, Done);
      if s.sh.ctl.Some? && s.sh.record.Some? && h.record.Some? {
        var touch := Some(Touch(h.record.value.author, s.sh.record.value));
        TableKeeps(s1, s1.sh.ctl, s1.ingest, touch);
        assert TouchRead(s, k) == SetTable(s1, s1.sh.ctl, s1.ingest, touch);
      }
    }
  }

  lemma TouchSaveKeeps(s: State, ok: bool)
    requires Inv(s)
    ensures Inv(TouchSave(s, ok))
  {
    if s.touch.Some? {
      var t := s.touch.value;
      TableKeeps(s, s.sh.ctl, s.ingest, None);
      var s1 := SetTable(s, s.sh.ctl, s.ingest, None);
      assert t.author < |s1.starts| && t.rec == RecordFor(s1.name, s1.starts[t.author].id, t.rec.phase);
      hide Inv;
      if ok {
        WroteKeeps(s1, t.author, t.rec.phase);
        assert TouchSave(s, ok) == Say(SetRecord(s1, t.rec), Wrote(t.author, t.rec.phase));
      } else {
        assert TouchSave(s, ok) == s1;
      }
    }
  }

  lemma EndReadKeeps(s: State, k: nat)
    requires Inv(s)
    ensures Inv(EndRead(s, k))
  {
    if Asks(s, k, Found) && s.requests[k].kind.End? {
      assert Sound(s.name, |s.starts|, s.requests[k]);
      hide Inv;
      if s.sh.record.Some? {
        PutKeeps(s, k, s.requests[k].(at := Read, phase := Some(s.sh.record.value.phase)));
      } else {
        GoKeeps(s, k, Turned);
      }
    }
  }

  /** The removal of a session nobody connected to. */
  lemma RemoveKeeps(s: State, saveOk: bool)
    requires Inv(s) && s.sh.ctl.Some? && !s.sh.ctl.value.running
    ensures Inv(SayIf(s.(sh := Remove(s.sh, saveOk)), saveOk, Wrote(s.sh.ctl.value.number, Phase.Closed)))
  {
    var c := s.sh.ctl.value;
    TableKeeps(s, None, s.ingest, s.touch);
    var s1 := SetTable(s, None, s.ingest, s.touch);
    assert c.number < |s.starts| && c.stream == RecordFor(s.name, s.starts[c.number].id, Phase.Starting);
    hide Inv;
    if saveOk {
      WroteKeeps(s1, c.number, Phase.Closed);
      assert s.(sh := Remove(s.sh, saveOk)) == SetRecord(s1, RecordFor(s.name, s.starts[c.number].id, Phase.Closed));
    } else {
      assert s.(sh := Remove(s.sh, saveOk)) == s1;
    }
  }

  lemma EndStopKeeps(s: State, k: nat, saveOk: bool)
    requires Inv(s)
    ensures Inv(EndStop(s, k, saveOk))
  {
    if Asks(s, k, Read) && s.touch.None? {
      assert Sound(s.name, |s.starts|, s.requests[k]);
      assert s.sh.ctl.Some? ==> s.sh.ctl.value.number < |s.starts|;
      hide Inv, Remove;
      if s.sh.ctl.Some? && s.sh.ctl.value.running {
        PutKeeps(s, k, s.requests[k].(at := Waiting, waited := Some(s.sh.ctl.value.number)));
      } else {
        GoKeeps(s, k, Stopped);
        if s.sh.ctl.Some? {
          RemoveKeeps(Go(s, k, Stopped), saveOk);
          assert Go(s, k, Stopped).(sh := Remove(s.sh, saveOk)) == Go(s.(sh := Remove(s.sh, saveOk)), k, Stopped);
        }
      }
    }
  }

  lemma EndAwakeKeeps(s: State, k: nat)
    requires Inv(s)
    ensures Inv(EndAwake(s, k))
  {
    if Asks(s, k, Waiting) {
      assert Sound(s.name, |s.starts|, s.requests[k]);
      hide Inv;
      GoKeeps(s, k, Stopped);
    }
  }

  lemma EndCloseKeeps(s: State, k: nat, ok: bool)
    requires Inv(s)
    ensures Inv(EndClose(s, k, ok))
  {
    if Asks(s, k, Stopped) && s.requests[k].found.Some? {
      assert Sound(s.name, |s.starts|, s.requests[k]);
      hide Inv;
      GoKeeps(s, k, Dropping);
      GoKeeps(s, k, Failed);
      CallKeeps(Go(s, k, Dropping), CloseSession, Asker(k), s.requests[k].found.value.workId);
    }
  }

  lemma EndDropKeeps(s: State, k: nat)
    requires Inv(s)
    ensures Inv(EndDrop(s, k))
  {
    if Asks(s, k, Dropping) {
      assert Sound(s.name, |s.starts|, s.requests[k]);
      hide Inv;
      GoKeeps(s, k, Done);
      UncachedKeeps(Go(s, k, Done));
      assert EndDrop(s, k) == Say(Go(s, k, Done).(sh := DropEntry(s.sh)), Uncached);
    }
  }

  lemma NextKeeps(s: State, step: Step)
    requires Inv(s)
    ensures Inv(Next(s, step))
  {
    hide Inv, Ask, DoRegister, DoAnswer, ConnectRead, ConnectSave, ConnectRun, ConnectFail, RunDebit, RunUpdate, RunClose,
      RunSave, RunLeave, Enter, CheckPhase, LookCache, LookRecord, TopupCredit, TouchRead, TouchSave, LoseEntry,
      EndRead, EndStop, EndAwake, EndClose, EndDrop;
    match step
    case Starts(SAsk(id, bound, paid)) => AskKeeps(s, id, bound, paid);
    case Starts(SRegister(n, saveOk)) => RegisterKeeps(s, n, saveOk);
    case Starts(SAnswer(n)) => AnswerKeeps(s, n);
    case Ingests(SConnectRead) => ConnectReadKeeps(s);
    case Ingests(SConnectSave(ok)) => ConnectSaveKeeps(s, ok);
    case Ingests(SConnectRun) => ConnectRunKeeps(s);
    case Ingests(SConnectFail) => ConnectFailKeeps(s);
    case Ingests(SRunDebit) => RunDebitKeeps(s);
    case Ingests(SRunUpdate(phase, ok)) => RunUpdateKeeps(s, phase, ok);
    case Ingests(SRunClose) => RunCloseKeeps(s);
    case Ingests(SRunSave(reason, ok)) => RunSaveKeeps(s, reason, ok);
    case Ingests(SRunLeave) => RunLeaveKeeps(s);
    case Requests(SEnter(kind)) => EnterKeeps(s, kind);
    case Requests(SCheckPhase(k)) => CheckPhaseKeeps(s, k);
    case Requests(SLookCache(k)) => LookCacheKeeps(s, k);
    case Requests(SLookRecord(k)) => LookRecordKeeps(s, k);
    case Requests(STopupCredit(k, ok)) => TopupCreditKeeps(s, k, ok);
    case Requests(STouchRead(k)) => TouchReadKeeps(s, k);
    case Requests(STouchSave(ok)) => TouchSaveKeeps(s, ok);
    case Requests(SLoseEntry) => LoseEntryKeeps(s);
    case Ends(SEndRead(k)) => EndReadKeeps(s, k);
    case Ends(SEndStop(k, saveOk)) => EndStopKeeps(s, k, saveOk);
    case Ends(SEndAwake(k)) => EndAwakeKeeps(s, k);
    case Ends(SEndClose(k, ok)) => EndCloseKeeps(s, k, ok);
    case Ends(SEndDrop(k)) => EndDropKeeps(s, k);
  }

  lemma LoseEntryKeeps(s: State)
    requires Inv(s)
    ensures Inv(LoseEntry(s))
  {
    UncachedKeeps(s);
  }

  lemma {:induction false} RunKeeps(name: Name, steps: seq<Step>)
    ensures Inv(Run(Initial(name), steps))
  {
    hide Next;
    if steps != [] {
      hide Inv;
      RunKeeps(name, steps[..|steps| - 1]);
      NextKeeps(Run(Initial(name), steps[..|steps| - 1]), steps[|steps| - 1]);
    }
  }
}
