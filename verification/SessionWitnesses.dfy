/** Runs in which a request is paid or closed under another session's work id, or a session is closed with the
    broker never or twice. Each is given step by step; every write to the store and every call to the broker
    succeeds. */
module SessionWitnesses {
  import opened LiveTypes
  import opened Sessions
  import opened SessionSteps
  import opened SessionInvariant
  import opened SessionCloses

  /** One more step of a run. */
  lemma Then(name: Name, steps: seq<Step>, s: State, x: Step) returns (steps': seq<Step>, s': State)
    requires s == Run(Initial(name), steps)
    ensures steps' == steps + [x] && s' == Next(s, x) && s' == Run(Initial(name), steps')
  {
    steps', s' := steps + [x], Next(s, x);
    RunSnoc(Initial(name), steps, x);
  }

  // ---- Stretches the runs have in common ----

  /** A start is paid for and registers. */
  lemma Begins(name: Name, steps: seq<Step>, s: State, id: Identity) returns (steps': seq<Step>, s': State)
    requires s == Run(Initial(name), steps) && s.name == name && s.sh.ctl.None? && s.touch.None?
    ensures s' == Run(Initial(name), steps')
    ensures var n := |s.starts|;
      var r := RecordFor(name, id, Phase.Starting);
      s' == s.(sh := s.sh.(record := Some(r), ctl := Some(Ctl(n, id, r, false))), starts := s.starts + [Start(id, Registered)],
               log := s.log + [Called(OpenSession, Session(n), id.workId)] + [Called(Credit, Session(n), id.workId)] + [Wrote(n, Phase.Starting)])
  {
    hide Run;
    var n := |s.starts|;
    steps', s' := Then(name, steps, s, Starts(SAsk(id, true, true)));
    assert s'.starts[n] == Start(id, Paid);
    steps', s' := Then(name, steps', s', Starts(SRegister(n, true)));
    assert s'.starts == s.starts + [Start(id, Registered)];
  }

  lemma Answers(name: Name, steps: seq<Step>, s: State, n: nat) returns (steps': seq<Step>, s': State)
    requires s == Run(Initial(name), steps) && s.name == name && n < |s.starts| && s.starts[n].stage.Registered?
    ensures s' == Run(Initial(name), steps')
    ensures s' == s.(sh := s.sh.(entry := Some(InfoFor(name, s.starts[n].id))),
                     starts := s.starts[n := s.starts[n].(stage := Answered)], log := s.log + [Cached(n)])
  {
    hide Run;
    steps', s' := Then(name, steps, s, Starts(SAnswer(n)));
  }

  /** A request comes in and looks its session up, in the cache or in the record. */
  lemma Finds(name: Name, steps: seq<Step>, s: State, kind: Kind) returns (steps': seq<Step>, s': State)
    requires s == Run(Initial(name), steps) && Active(s.sh)
    ensures s' == Run(Initial(name), steps')
    ensures var info := if s.sh.entry.Some? then s.sh.entry.value else InfoOf(s.sh.record.value);
      s' == s.(requests := s.requests + [Request(kind, Found, Some(info), None, None)])
  {
    hide Run;
    var k := |s.requests|;
    steps', s' := Then(name, steps, s, Requests(SEnter(kind)));
    steps', s' := Then(name, steps', s', Requests(SCheckPhase(k)));
    steps', s' := Then(name, steps', s', Requests(SLookCache(k)));
    if s.sh.entry.None? {
      steps', s' := Then(name, steps', s', Requests(SLookRecord(k)));
    }
    var info := if s.sh.entry.Some? then s.sh.entry.value else InfoOf(s.sh.record.value);
    assert s'.requests == s.requests + [Request(kind, Found, Some(info), None, None)];
  }

  /** The ticket of the last request, a top-up, is credited. */
  lemma Credits(name: Name, steps: seq<Step>, s: State) returns (steps': seq<Step>, s': State)
    requires s == Run(Initial(name), steps)
    requires |s.requests| > 0 && var r := s.requests[|s.requests| - 1]; r.at.Found? && r.kind.Topup? && r.found.Some?
    ensures s' == Run(Initial(name), steps')
    ensures s'.name == s.name && s'.sh == s.sh && s'.starts == s.starts && s'.ingest == s.ingest && s'.touch == s.touch
    ensures s'.requests == s.requests[|s.requests| - 1 := s.requests[|s.requests| - 1].(at := Credited)]
    ensures var k := |s.requests| - 1;
      s'.log == s.log + [Called(Credit, Asker(k), s.requests[k].found.value.workId)]
  {
    hide Run;
    steps', s' := Then(name, steps, s, Requests(STopupCredit(|s.requests| - 1, true)));
  }

  lemma ReadsPhase(name: Name, steps: seq<Step>, s: State, k: nat) returns (steps': seq<Step>, s': State)
    requires s == Run(Initial(name), steps) && Asks(s, k, Found) && s.requests[k].kind.End? && s.sh.record.Some?
    ensures s' == Run(Initial(name), steps')
    ensures s' == Put(s, k, s.requests[k].(at := Read, phase := Some(s.sh.record.value.phase)))
  {
    hide Run;
    steps', s' := Then(name, steps, s, Ends(SEndRead(k)));
  }

  /** An end request stops a session nobody has connected to. */
  lemma StopsPending(name: Name, steps: seq<Step>, s: State, k: nat) returns (steps': seq<Step>, s': State)
    requires s == Run(Initial(name), steps) && s.name == name && Asks(s, k, Read) && s.touch.None?
    requires s.requests[k].found.Some? && s.requests[k].found.value.streamId == name
    requires s.sh.ctl.Some? && !s.sh.ctl.value.running
    ensures s' == Run(Initial(name), steps')
    ensures var c := s.sh.ctl.value;
      s' == Put(s, k, s.requests[k].(at := Stopped)).(sh := s.sh.(record := Some(c.stream.(phase := Phase.Closed)), ctl := None),
                                                      log := s.log + [Wrote(c.number, Phase.Closed)])
  {
    hide Run;
    steps', s' := Then(name, steps, s, Ends(SEndStop(k, true)));
  }

  /** The rest of an end request: close with the broker if nobody had connected, and drop the entry. */
  lemma Concludes(name: Name, steps: seq<Step>, s: State, k: nat) returns (steps': seq<Step>, s': State)
    requires s == Run(Initial(name), steps) && Asks(s, k, Stopped) && s.requests[k].found.Some?
    ensures s' == Run(Initial(name), steps')
    ensures var r := s.requests[k];
      var close := if r.phase == Some(Phase.Starting) then [Called(CloseSession, Asker(k), r.found.value.workId)] else [];
      s' == Put(s, k, r.(at := Done)).(sh := s.sh.(entry := None), log := s.log + close + [Uncached])
  {
    hide Run;
    steps', s' := Then(name, steps, s, Ends(SEndClose(k, true)));
    steps', s' := Then(name, steps', s', Ends(SEndDrop(k)));
    var r := s.requests[k];
    assert s.log + [] == s.log;
    assert s'.requests == s.requests[k := r.(at := Done)];
  }

  /** A broadcaster connects to the session in the table, up to the record and then to the run. */
  lemma Keys(name: Name, steps: seq<Step>, s: State) returns (steps': seq<Step>, s': State)
    requires s == Run(Initial(name), steps) && s.ingest.None? && s.touch.None? && s.sh.ctl.Some?
    ensures s' == Run(Initial(name), steps')
    ensures s' == s.(ingest := Some(Ingest(s.sh.ctl.value.number, s.sh.ctl.value.id, Keyed)))
  {
    hide Run;
    steps', s' := Then(name, steps, s, Ingests(SConnectRead));
  }

  lemma Files(name: Name, steps: seq<Step>, s: State) returns (steps': seq<Step>, s': State)
    requires s == Run(Initial(name), steps) && s.name == name && AtPlace(s, Keyed)
    ensures s' == Run(Initial(name), steps')
    ensures var i := s.ingest.value;
      s' == s.(ingest := Some(i.(place := Filed)), sh := s.sh.(record := Some(RecordFor(name, i.id, Streaming))),
               log := s.log + [Wrote(i.number, Streaming)])
  {
    hide Run;
    steps', s' := Then(name, steps, s, Ingests(SConnectSave(true)));
  }

  lemma Publishes(name: Name, steps: seq<Step>, s: State) returns (steps': seq<Step>, s': State)
    requires s == Run(Initial(name), steps) && s.name == name && AtPlace(s, Filed) && s.touch.None?
    ensures s' == Run(Initial(name), steps') && steps' == steps + [Ingests(SConnectRun)]
    ensures var i := s.ingest.value;
      s' == s.(ingest := Some(i.(place := Running)), sh := s.sh.(ctl := Some(Ctl(i.number, i.id, RecordFor(name, i.id, Streaming), true))),
               log := s.log + [Ran(i.number)])
  {
    hide Run;
    steps', s' := Then(name, steps, s, Ingests(SConnectRun));
  }

  /** A run ends: it closes with the broker, writes its terminal phase, and leaves the table. */
  lemma Finishes(name: Name, steps: seq<Step>, s: State) returns (steps': seq<Step>, s': State)
    requires s == Run(Initial(name), steps) && AtPlace(s, Running) && s.touch.None? && s.ingest.value.id.Paid() && s.sh.record.Some?
    ensures s' == Run(Initial(name), steps')
    ensures var i := s.ingest.value;
      s' == s.(ingest := None, sh := s.sh.(record := Some(s.sh.record.value.(phase := Phase.Closed)), ctl := None),
               log := s.log + [Called(CloseSession, Session(i.number), i.id.workId)] + [Rephased(Phase.Closed)])
  {
    hide Run;
    steps', s' := Then(name, steps, s, Ingests(SRunClose));
    steps', s' := Then(name, steps', s', Ingests(SRunSave(Graceful, true)));
    steps', s' := Then(name, steps', s', Ingests(SRunLeave));
  }

  /** The first request, an end request, ends a session nobody has connected to. */
  lemma EndsPending(name: Name, steps: seq<Step>, s: State) returns (steps': seq<Step>, s': State)
    requires s == Run(Initial(name), steps) && s.name == name && s.touch.None? && s.requests == [] && Active(s.sh)
    requires s.sh.ctl.Some? && !s.sh.ctl.value.running
    requires s.sh.entry.Some? ==> s.sh.entry.value.streamId == name
    requires s.sh.record.value.workId == name
    ensures s' == Run(Initial(name), steps')
    ensures s'.name == name && s'.touch.None? && s'.starts == s.starts && s'.ingest == s.ingest
    ensures s'.sh.ctl.None? && s'.sh.entry.None? && s'.sh.record.Some?
    ensures |s'.requests| == 1 && s'.requests[0].kind.End? && s'.requests[0].at.Done? && s'.requests[0].waited.None?
    ensures s'.requests[0].phase == Some(s.sh.record.value.phase)
    ensures forall n :: Ran(n) in s'.log <==> Ran(n) in s.log
  {
    hide Run, Next;
    steps', s' := Finds(name, steps, s, End);
    steps', s' := ReadsPhase(name, steps', s', 0);
    steps', s' := StopsPending(name, steps', s', 0);
    steps', s' := Concludes(name, steps', s', 0);
  }

  // ---- Requests under another session's work id ----

  /** A session runs its course and its cache entry stays; a top-up that comes in after the next session has
      registered and before its start is answered is credited to the finished one. */
  lemma StaleEntry(name: Name, a: Identity, b: Identity) returns (steps: seq<Step>)
    requires a.Paid() && b.Paid() && a.workId != b.workId
    ensures var s := Run(Initial(name), steps);
      && Listed(s.sh.ctl, 1) && |s.starts| == 2 && s.starts[1].id == b
      && |s.log| > 0 && s.log[|s.log| - 1] == Called(Credit, Asker(0), a.workId)
  {
    hide Run, Next;
    steps := [];
    var s := Initial(name);
    assert s == Run(Initial(name), steps) by { RunNothing(name); }
    steps, s := Begins(name, steps, s, a);
    steps, s := Answers(name, steps, s, 0);
    steps, s := Keys(name, steps, s);
    steps, s := Files(name, steps, s);
    steps, s := Publishes(name, steps, s);
    steps, s := Finishes(name, steps, s);
    steps, s := Begins(name, steps, s, b);
    steps, s := Finds(name, steps, s, Topup);
    steps, s := Credits(name, steps, s);
  }

  lemma RunNothing(name: Name)
    ensures Initial(name) == Run(Initial(name), [])
  {
  }

  /** The answer of a start comes late: its session has been ended, the next one has registered and has been
      answered. The late answer overwrites the entry, and a top-up for the live and answered session is
      credited to the ended one. */
  lemma LateAnswer(name: Name, a: Identity, b: Identity) returns (steps: seq<Step>)
    requires a.Paid() && b.Paid() && a.workId != b.workId
    ensures var s := Run(Initial(name), steps);
      && Listed(s.sh.ctl, 1) && |s.starts| == 2 && s.starts[1] == Start(b, Answered)
      && |s.log| > 0 && s.log[|s.log| - 1] == Called(Credit, Asker(1), a.workId)
  {
    hide Run, Next;
    steps := [];
    var s := Initial(name);
    assert s == Run(Initial(name), steps) by { RunNothing(name); }
    steps, s := Begins(name, steps, s, a);
    steps, s := EndsPending(name, steps, s);
    steps, s := Begins(name, steps, s, b);
    steps, s := Answers(name, steps, s, 1);
    steps, s := Answers(name, steps, s, 0);
    steps, s := Finds(name, steps, s, Topup);
    steps, s := Credits(name, steps, s);
  }

  /** A connect straddles the end of its session and the start of the next: it writes the old session's record
      over the new one's, a top-up is credited to the old session, and the connect then puts the old session
      in the table in place of the new one. */
  lemma LateConnect(name: Name, a: Identity, b: Identity) returns (steps: seq<Step>)
    requires a.Paid() && b.Paid() && a.workId != b.workId
    ensures var s := Run(Initial(name), steps);
      && Listed(s.sh.ctl, 1) && |s.starts| == 2 && s.starts[1].id == b
      && |s.log| > 0 && s.log[|s.log| - 1] == Called(Credit, Asker(1), a.workId)
    ensures var s := Run(Initial(name), steps + [Ingests(SConnectRun)]);
      Listed(s.sh.ctl, 0) && s.sh.ctl.value.running && s.sh.ctl.value.id == a
  {
    hide Run, Next;
    steps := [];
    var s := Initial(name);
    assert s == Run(Initial(name), steps) by { RunNothing(name); }
    steps, s := Begins(name, steps, s, a);
    steps, s := Keys(name, steps, s);
    steps, s := EndsPending(name, steps, s);
    steps, s := Begins(name, steps, s, b);
    steps, s := Files(name, steps, s);
    steps, s := Finds(name, steps, s, Topup);
    steps, s := Credits(name, steps, s);
    var more, _ := Publishes(name, steps, s);
  }

  // ---- Sessions closed never and twice ----

  /** A broadcaster is refused after the record was written, for want of capacity: an end request then reads
      that somebody connected, and the session is over and never closed with the broker. */
  lemma ClosedNever(name: Name, a: Identity) returns (steps: seq<Step>)
    requires a.Paid()
    ensures var s := Run(Initial(name), steps);
      && |s.starts| == 1 && s.starts[0].id == a && s.sh.ctl.None? && s.ingest.None?
      && |s.requests| == 1 && s.requests[0].at.Done?
      && ClosesAround(s, 0) == 0 && ClosesOf(s.log, a.workId) == 0
  {
    hide Run, Next, ClosesBy, ClosesOf, EndsFor, RunsFor;
    steps := [];
    var s := Initial(name);
    assert s == Run(Initial(name), steps) by { RunNothing(name); }
    steps, s := Begins(name, steps, s, a);
    steps, s := Answers(name, steps, s, 0);
    steps, s := Keys(name, steps, s);
    steps, s := Files(name, steps, s);
    steps, s := Refuses(name, steps, s);
    steps, s := EndsPending(name, steps, s);
    assert Ran(0) !in s.log;
    SessionClosedTimes(name, steps, a.workId);
    OneStart(s, a.workId);
    EndRequestCloses(name, steps, 0);
    OneRequest(s.requests, a.workId);
  }

  lemma Refuses(name: Name, steps: seq<Step>, s: State) returns (steps': seq<Step>, s': State)
    requires s == Run(Initial(name), steps) && AtPlace(s, Filed)
    ensures s' == Run(Initial(name), steps') && s' == s.(ingest := None)
  {
    hide Run;
    steps', s' := Then(name, steps, s, Ingests(SConnectFail));
  }

  lemma OneStart(s: State, w: Name)
    requires |s.starts| == 1
    ensures RunsFor(s, 1, w) == if s.starts[0].id.workId == w && ClosedByRun(s, 0) then 1 else 0
  {
    assert RunsFor(s, 0, w) == 0;
  }

  lemma OneRequest(rs: seq<Request>, w: Name)
    requires |rs| == 1
    ensures EndsFor(rs, w) == if ClosedItself(rs[0]) && rs[0].found.Some? && rs[0].found.value.workId == w then 1 else 0
  {
    assert rs[..0] == [] && EndsFor(rs[..0], w) == 0;
  }

  /** A broadcaster connects between the end request's reading of the record and its stop: the run closes the
      session with the broker, and then the request does so again. */
  lemma ClosedTwice(name: Name, a: Identity) returns (steps: seq<Step>)
    requires a.Paid()
    ensures var s := Run(Initial(name), steps);
      && |s.starts| == 1 && s.starts[0].id == a && s.sh.ctl.None? && s.ingest.None?
      && |s.requests| == 1 && s.requests[0].at.Done?
      && ClosesAround(s, 0) == 2 && ClosesOf(s.log, a.workId) == 2
  {
    hide Run, Next, ClosesBy, ClosesOf, EndsFor, RunsFor;
    var s;
    steps, s := ConnectsInBetween(name, a);
    steps, s := EndsRunning(name, steps, s);
    SessionClosedTimes(name, steps, a.workId);
    OneStart(s, a.workId);
    EndRequestCloses(name, steps, 0);
    OneRequest(s.requests, a.workId);
  }

  lemma ConnectsInBetween(name: Name, a: Identity) returns (steps: seq<Step>, s: State)
    requires a.Paid()
    ensures s == Run(Initial(name), steps) && s.name == name && s.touch.None? && |s.starts| == 1 && s.starts[0].id == a
    ensures s.requests == [Request(End, Read, Some(InfoFor(name, a)), Some(Phase.Starting), None)]
    ensures s.sh.ctl.Some? && s.sh.ctl.value.running && s.sh.ctl.value.number == 0 && s.sh.record.Some?
    ensures s.ingest == Some(Ingest(0, a, Running)) && Ran(0) in s.log
  {
    hide Run, Next;
    steps, s := [], Initial(name);
    assert s == Run(Initial(name), steps) by { RunNothing(name); }
    steps, s := Begins(name, steps, s, a);
    steps, s := Answers(name, steps, s, 0);
    steps, s := Finds(name, steps, s, End);
    steps, s := ReadsPhase(name, steps, s, 0);
    steps, s := Keys(name, steps, s);
    steps, s := Files(name, steps, s);
    steps, s := Publishes(name, steps, s);
  }

  /** The first request stops a running session, which then runs to its end. */
  lemma EndsRunning(name: Name, steps: seq<Step>, s: State) returns (steps': seq<Step>, s': State)
    requires s == Run(Initial(name), steps) && s.name == name && |s.requests| == 1 && Asks(s, 0, Read) && s.touch.None?
    requires s.requests[0].found.Some? && s.requests[0].found.value.streamId == name
    requires s.sh.ctl.Some? && s.sh.ctl.value.running && s.sh.record.Some?
    requires AtPlace(s, Running) && s.ingest.value.id.Paid()
    ensures s' == Run(Initial(name), steps')
    ensures s'.starts == s.starts && s'.ingest.None? && s'.sh.ctl.None?
    ensures s'.requests == [s.requests[0].(at := Done, waited := Some(s.sh.ctl.value.number))]
    ensures forall n | Ran(n) in s.log :: Ran(n) in s'.log
  {
    hide Run, Next;
    steps', s' := StopsRunning(name, steps, s, 0);
    steps', s' := Finishes(name, steps', s');
    steps', s' := Wakes(name, steps', s', 0);
    steps', s' := Concludes(name, steps', s', 0);
  }

  lemma StopsRunning(name: Name, steps: seq<Step>, s: State, k: nat) returns (steps': seq<Step>, s': State)
    requires s == Run(Initial(name), steps) && s.name == name && Asks(s, k, Read) && s.touch.None?
    requires s.requests[k].found.Some? && s.requests[k].found.value.streamId == name
    requires s.sh.ctl.Some? && s.sh.ctl.value.running
    ensures s' == Run(Initial(name), steps')
    ensures s' == Put(s, k, s.requests[k].(at := Waiting, waited := Some(s.sh.ctl.value.number)))
  {
    hide Run;
    steps', s' := Then(name, steps, s, Ends(SEndStop(k, true)));
  }

  lemma Wakes(name: Name, steps: seq<Step>, s: State, k: nat) returns (steps': seq<Step>, s': State)
    requires s == Run(Initial(name), steps) && Asks(s, k, Waiting) && s.ingest.None?
    ensures s' == Run(Initial(name), steps') && s' == Go(s, k, Stopped)
  {
    hide Run;
    steps', s' := Then(name, steps, s, Ends(SEndAwake(k)));
  }

  // ---- A record that outlives its session ----

  /** A top-up reads the record before the run writes its final phase and writes it back after that: the
      session has left the table and is closed with the broker, its final save landed, and its record says
      that it is streaming; the next top-up is credited to it. */
  lemma RecordOutlives(name: Name, a: Identity) returns (steps: seq<Step>)
    requires a.Paid()
    ensures var s := Run(Initial(name), steps);
      && s.sh.ctl.None? && s.ingest.None? && s.touch.None? && Active(s.sh) && s.sh.record.value.phase == Streaming
      && Called(CloseSession, Session(0), a.workId) in s.log
      && |s.log| > 0 && s.log[|s.log| - 1] == Called(Credit, Asker(1), a.workId)
  {
    hide Run, Next;
    var s;
    steps, s := TouchesRunning(name, a);
    steps, s := FinishesTouched(name, steps, s);
    steps, s := Finds(name, steps, s, Topup);
    steps, s := Credits(name, steps, s);
  }

  /** A session runs, and a top-up holds the lock with the record it read. */
  lemma TouchesRunning(name: Name, a: Identity) returns (steps: seq<Step>, s: State)
    requires a.Paid()
    ensures s == Run(Initial(name), steps) && s.name == name
    ensures s.sh == Shared(Some(RecordFor(name, a, Streaming)), Some(InfoFor(name, a)), Some(Ctl(0, a, RecordFor(name, a, Streaming), true)))
    ensures s.ingest == Some(Ingest(0, a, Running)) && |s.requests| == 1
    ensures s.touch.Some? && s.touch.value.rec == RecordFor(name, a, Streaming)
  {
    hide Run, Next;
    steps, s := [], Initial(name);
    assert s == Run(Initial(name), steps) by { RunNothing(name); }
    steps, s := Begins(name, steps, s, a);
    steps, s := Answers(name, steps, s, 0);
    steps, s := Keys(name, steps, s);
    steps, s := Files(name, steps, s);
    steps, s := Publishes(name, steps, s);
    steps, s := Finds(name, steps, s, Topup);
    steps, s := Credits(name, steps, s);
    RunKeeps(name, steps);
    steps, s := Touches(name, steps, s, 0);
  }

  lemma Touches(name: Name, steps: seq<Step>, s: State, k: nat) returns (steps': seq<Step>, s': State)
    requires s == Run(Initial(name), steps) && Inv(s) && Asks(s, k, Credited) && s.touch.None? && s.sh.ctl.Some? && s.sh.record.Some?
    ensures s' == Run(Initial(name), steps')
    ensures s'.name == s.name && s'.sh == s.sh && s'.ingest == s.ingest && |s'.requests| == |s.requests|
    ensures s'.touch.Some? && s'.touch.value.rec == s.sh.record.value
  {
    hide Run, HandsOf;
    steps', s' := Then(name, steps, s, Requests(STouchRead(k)));
  }

  /** The run ends while the top-up holds the lock; the top-up writes back, and the run leaves. */
  lemma FinishesTouched(name: Name, steps: seq<Step>, s: State) returns (steps': seq<Step>, s': State)
    requires s == Run(Initial(name), steps) && AtPlace(s, Running) && s.ingest.value.id.Paid() && s.touch.Some? && s.sh.record.Some?
    ensures s' == Run(Initial(name), steps')
    ensures s'.ingest.None? && s'.touch.None? && s'.requests == s.requests
    ensures s'.sh == s.sh.(record := Some(s.touch.value.rec), ctl := None)
    ensures Called(CloseSession, Session(s.ingest.value.number), s.ingest.value.id.workId) in s'.log
  {
    hide Run;
    steps', s' := Then(name, steps, s, Ingests(SRunClose));
    steps', s' := Then(name, steps', s', Ingests(SRunSave(Graceful, true)));
    steps', s' := Then(name, steps', s', Requests(STouchSave(true)));
    steps', s' := Then(name, steps', s', Ingests(SRunLeave));
  }
}
