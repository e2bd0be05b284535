/** Under which work id a session is opened, credited, debited and closed: always its own for the calls its
    start and its run make; for requests exactly when what they look up was written by the session. */
module SessionIdentity {
  import opened LiveTypes
  import opened Sessions
  import opened SessionSteps
  import opened SessionInvariant
  import opened SessionCloses

  /** One work id per session: in every interleaving every open, first credit, debit and close made by the
      start or the run of a session names the work id the session was started with, and every credit and
      close made by a request names the one its lookup gave. */
  lemma OneWorkId(name: Name, steps: seq<Step>, j: nat)
    requires var s := Run(Initial(name), steps); j < |s.log| && s.log[j].Called?
    ensures var s := Run(Initial(name), steps);
      match s.log[j].who
      case Session(n) => n < |s.starts| && s.log[j].workId == s.starts[n].id.workId
      case Asker(k) => k < |s.requests| && s.requests[k].found.Some? && s.log[j].workId == s.requests[k].found.value.workId
  {
    hide Run;
    RunKeeps(name, steps);
    assert Fits(Run(Initial(name), steps), Run(Initial(name), steps).log[j]);
  }

  /** What a lookup gives, in every reachable state: the identity of the start answered last since the entry
      was last dropped, if there is one; otherwise that of the session that wrote the record last. */
  lemma LookupGives(name: Name, steps: seq<Step>, k: nat)
    requires k < |Run(Initial(name), steps).requests|
    ensures var s := Run(Initial(name), steps);
      var h, hit, miss := HandsOf(s.log), Next(s, Requests(SLookCache(k))).requests[k], Next(s, Requests(SLookRecord(k))).requests[k];
      && (h.entry.Some? ==> h.entry.value < |s.starts|)
      && (h.record.Some? ==> h.record.value.author < |s.starts|)
      && (s.requests[k].at.Checked? ==>
            if h.entry.Some? then
              var id := s.starts[h.entry.value].id;
              hit.found == Some(Info(name, id.workerId, id.workId, name, id.sender))
            else hit.at.Missed?)
      && (s.requests[k].at.Missed? ==>
            if h.record.Some? then
              var id := s.starts[h.record.value.author].id;
              miss.found == Some(Info(name, id.workerId, if id.workId != "" then id.workId else name, name, id.sender))
            else miss.at.Turned?)
  {
    hide Run, HandsOf;
    RunKeeps(name, steps);
    IdentityLasts(Initial(name), steps, 0);
  }

  ghost predicate OwnWorkId(s: State, n: nat) {
    n < |s.starts| && forall m | 0 <= m < |s.starts| && m != n :: s.starts[m].id.workId != s.starts[n].id.workId
  }

  /** So a request for the session in the table finds its work id if and only if the start answered last since
      the entry was dropped has it, or there is no entry and the session that wrote the record last has it.
      If no other start has the same work id, that is to say the session itself. */
  lemma LookupNames(name: Name, steps: seq<Step>, k: nat, n: nat)
    requires var s := Run(Initial(name), steps); k < |s.requests| && n < |s.starts| && Listed(s.sh.ctl, n)
    ensures var s := Run(Initial(name), steps);
      var h, w := HandsOf(s.log), s.starts[n].id.workId;
      var hit, miss := Next(s, Requests(SLookCache(k))).requests[k].found, Next(s, Requests(SLookRecord(k))).requests[k].found;
      && (s.requests[k].at.Checked? && h.entry.Some? ==>
            && hit.Some? && h.entry.value < |s.starts|
            && (hit.value.workId == w <==> s.starts[h.entry.value].id.workId == w)
            && (OwnWorkId(s, n) ==> (hit.value.workId == w <==> h.entry == Some(n))))
      && (s.requests[k].at.Missed? && h.record.Some? ==>
            && miss.Some? && h.record.value.author < |s.starts|
            && (miss.value.workId == w <==> (if s.starts[h.record.value.author].id.workId != "" then s.starts[h.record.value.author].id.workId else name) == w)
            && (OwnWorkId(s, n) && w != "" && w != name ==> (miss.value.workId == w <==> h.record.value.author == n)))
  {
    hide Run, HandsOf, Next;
    LookupGives(name, steps, k);
  }

  /** Names and identities are there to stay. */
  ghost predicate Lasts(s: State, s': State, n: nat) {
    s'.name == s.name && (n < |s.starts| ==> n < |s'.starts| && s'.starts[n].id == s.starts[n].id)
  }

  lemma StartLasts(s: State, step: StartStep, n: nat)
    ensures Lasts(s, NextStart(s, step), n)
  {
  }

  lemma IngestLasts(s: State, step: IngestStep, n: nat)
    ensures Lasts(s, NextIngest(s, step), n)
  {
  }

  lemma RequestLasts(s: State, step: RequestStep, n: nat)
    ensures Lasts(s, NextRequest(s, step), n)
  {
    hide HandsOf, Check, Active;
  }

  lemma EndLasts(s: State, step: EndStep, n: nat)
    ensures Lasts(s, NextEnd(s, step), n)
  {
  }

  lemma {:induction false} IdentityLasts(s: State, more: seq<Step>, n: nat)
    ensures Lasts(s, Run(s, more), n)
  {
    hide NextStart, NextIngest, NextRequest, NextEnd;
    if more != [] {
      var s1, step := Run(s, more[..|more| - 1]), more[|more| - 1];
      IdentityLasts(s, more[..|more| - 1], n);
      match step
      case Starts(a) => StartLasts(s1, a, n);
      case Ingests(i) => IngestLasts(s1, i, n);
      case Requests(r) => RequestLasts(s1, r, n);
      case Ends(e) => EndLasts(s1, e, n);
    }
  }

  // ---- Sessions that are left undisturbed ----

  /** The session in the table is the only one with a hand in what lookups read: no other start is still to
      be answered, no connection and no top-up holds another's identity, the record is its own, and so is
      the cache entry once its start was answered. */
  ghost predicate Own(s: State, n: nat) {
    var h := HandsOf(s.log);
    && n < |s.starts| && (s.starts[n].stage.Registered? || s.starts[n].stage.Answered?)
    && Listed(s.sh.ctl, n)
    && (s.ingest.Some? ==> Holds(s.ingest, n))
    && (s.touch.Some? ==> s.touch.value.author == n)
    && (h.record.Some? && h.record.value.author == n)
    && (forall m | 0 <= m < |s.starts| && m != n :: !s.starts[m].stage.Registered?)
    && (s.starts[n].stage.Answered? ==> h.entry.None? || h.entry == Some(n))
  }

  /** A start registers while no other start waits for its answer and nobody is connecting. */
  ghost predicate RegistersAlone(s: State, n: nat, saveOk: bool) {
    && n < |s.starts| && s.starts[n].stage.Paid? && s.touch.None? && s.sh.ctl.None? && saveOk
    && s.ingest.None?
    && (forall m | 0 <= m < |s.starts| :: !s.starts[m].stage.Registered?)
  }

  lemma RegisterOwns(s: State, n: nat, saveOk: bool)
    requires RegistersAlone(s, n, saveOk)
    ensures Own(Next(s, Starts(SRegister(n, saveOk))), n)
  {
    hide HandsOf;
    HandsSnoc(s.log, Wrote(n, Phase.Starting));
  }

  lemma StartKeepsOwn(s: State, step: StartStep, n: nat)
    requires Own(s, n)
    ensures Own(NextStart(s, step), n)
  {
    hide HandsOf;
    match step
    case SAsk(id, bound, paid) =>
      var s1 := s.(starts := s.starts + [Start(id, if bound && paid then Paid else Refused)]);
      var e1, e2 := Called(OpenSession, Session(|s.starts|), id.workId), Called(Credit, Session(|s.starts|), id.workId);
      HandsSnoc(s1.log, e1);
      HandsSnoc(s1.log + [e1], e2);
    case SRegister(m, saveOk) =>
    case SAnswer(m) =>
      HandsSnoc(s.log, Cached(m));
  }

  lemma IngestKeepsOwn(s: State, step: IngestStep, n: nat)
    requires Own(s, n) && Inv(s) && Listed(NextIngest(s, step).sh.ctl, n)
    ensures Own(NextIngest(s, step), n)
  {
    hide HandsOf, Authored, RunsInTable, RequestsSound, CallsFit;
    if s.ingest.Some? {
      var i := s.ingest.value;
      HandsSnoc(s.log, Wrote(i.number, Streaming));
      HandsSnoc(s.log, Ran(i.number));
      HandsSnoc(s.log, Called(Debit, Session(i.number), i.id.workId));
      HandsSnoc(s.log, Called(CloseSession, Session(i.number), i.id.workId));
    }
    if step.SRunUpdate? { HandsSnoc(s.log, Rephased(step.phase)); }
    if step.SRunSave? { HandsSnoc(s.log, Rephased(TerminalPhase(step.reason))); }
  }

  lemma RequestKeepsOwn(s: State, step: RequestStep, n: nat)
    requires Own(s, n)
    ensures Own(NextRequest(s, step), n)
  {
    hide HandsOf;
    HandsSnoc(s.log, Uncached);
    if step.STopupCredit? && step.k < |s.requests| && s.requests[step.k].found.Some? {
      HandsSnoc(s.log, Called(Credit, Asker(step.k), s.requests[step.k].found.value.workId));
    }
    if s.touch.Some? { HandsSnoc(s.log, Wrote(s.touch.value.author, s.touch.value.rec.phase)); }
  }

  lemma EndKeepsOwn(s: State, step: EndStep, n: nat)
    requires Own(s, n) && Listed(NextEnd(s, step).sh.ctl, n)
    ensures Own(NextEnd(s, step), n)
  {
    hide HandsOf;
    HandsSnoc(s.log, Uncached);
    if step.k < |s.requests| && s.requests[step.k].found.Some? {
      HandsSnoc(s.log, Called(CloseSession, Asker(step.k), s.requests[step.k].found.value.workId));
    }
  }

  lemma NextKeepsOwn(s: State, step: Step, n: nat)
    requires Own(s, n) && Inv(s) && Listed(Next(s, step).sh.ctl, n)
    ensures Own(Next(s, step), n)
  {
    hide Own, Inv, NextStart, NextIngest, NextRequest, NextEnd;
    match step
    case Starts(a) => StartKeepsOwn(s, a, n);
    case Ingests(i) => IngestKeepsOwn(s, i, n);
    case Requests(r) => RequestKeepsOwn(s, r, n);
    case Ends(e) => EndKeepsOwn(s, e, n);
  }

  ghost predicate StaysListed(s: State, more: seq<Step>, n: nat) {
    forall j | 0 <= j <= |more| :: Listed(Run(s, more[..j]).sh.ctl, n)
  }

  lemma {:induction false} StaysOwn(s: State, more: seq<Step>, n: nat)
    requires Own(s, n) && Inv(s) && StaysListed(s, more, n)
    ensures Own(Run(s, more), n) && Inv(Run(s, more))
  {
    hide Own, Inv, Next;
    if more != [] {
      var init := more[..|more| - 1];
      forall j | 0 <= j <= |init| ensures Listed(Run(s, init[..j]).sh.ctl, n) { assert init[..j] == more[..j]; }
      StaysOwn(s, init, n);
      assert more[..|more|] == more;
      NextKeepsOwn(Run(s, init), more[|more| - 1], n);
      NextKeeps(Run(s, init), more[|more| - 1]);
    }
  }

  /** The guarantee a gateway can arrange for: a session that registers while no other start of its name is
      unanswered and nobody is connecting. As long as it stays in the table, and whatever else happens, every
      lookup in the record gives its identity; and once its start was answered every lookup in the cache
      does too, so that losing the entry changes nothing. */
  lemma UndisturbedSession(name: Name, steps: seq<Step>, n: nat, saveOk: bool, more: seq<Step>)
    requires var s := Run(Initial(name), steps);
      && RegistersAlone(s, n, saveOk) && s.starts[n].id.workId != ""
      && StaysListed(Next(s, Starts(SRegister(n, saveOk))), more, n)
    ensures var s := Run(Next(Run(Initial(name), steps), Starts(SRegister(n, saveOk))), more);
      && n < |s.starts| && s.sh.record.Some?
      && var id := s.starts[n].id;
        var info := Info(s.name, id.workerId, id.workId, s.name, id.sender);
        && InfoOf(s.sh.record.value) == info
        && (s.starts[n].stage.Answered? ==> s.sh.entry.None? || s.sh.entry == Some(info))
  {
    var s0 := Run(Initial(name), steps);
    var s1 := Next(s0, Starts(SRegister(n, saveOk)));
    RunKeeps(name, steps);
    NextKeeps(s0, Starts(SRegister(n, saveOk)));
    RegisterOwns(s0, n, saveOk);
    assert s1.starts[n].id.workId != "";
    hide Next, HandsOf, Numbered, RunsInTable, RequestsSound, CallsFit;
    StaysOwn(s1, more, n);
    IdentityLasts(s1, more, n);
  }
}
