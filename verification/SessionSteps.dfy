/** One session name under any interleaving of any number of start, top-up and end requests, connects and
    runs. A step is one critical section, one access to the store, or one call to the broker. The log keeps
    every call to the broker and every write to the cache entry and the record, with its author. */
module SessionSteps {
  import opened LiveTypes
  import opened Sessions

  // ---- The handlers and the run, each at its place ----

  /** A start: paid for and not yet registered, registered and not yet answered, answered, refused. A
      broadcaster who connects to a name nobody started is numbered as well. */
  datatype Stage = Paid | Registered | Answered | Refused | Unasked

  datatype Start = Start(id: Identity, stage: Stage)

  /** A broadcaster's connection: it has read the table, has written the record, runs, has closed with the
      broker, has written the terminal phase. */
  datatype Place = Keyed | Filed | Running | Settled | Saved

  datatype Ingest = Ingest(number: nat, id: Identity, place: Place)
  {
    predicate IsRun() {
      place.Running? || place.Settled? || place.Saved?
    }
  }

  datatype Kind = Topup | End

  /** A top-up or end request. `Turned` is an error answer before the broker was called, `Failed` one because
      the broker refused. */
  datatype At = Entered | Checked | Missed | Found | Credited | Read | Waiting | Stopped | Dropping | Done | Turned | Failed

  /** `found` is what the lookup gave, `phase` what an end request read, `waited` the run it waited for. */
  datatype Request = Request(kind: Kind, at: At, found: Option<Info>, phase: Option<Phase>, waited: Option<nat>)

  /** The runner's `Topup` between reading the record and writing it back, under the table's lock. */
  datatype Touch = Touch(author: nat, rec: StreamRec)

  // ---- The log ----

  datatype Verb = OpenSession | Credit | Debit | CloseSession

  /** Who calls the broker: a start or the run of its session, or a top-up or end request. */
  datatype Caller = Session(number: nat) | Asker(request: nat)

  datatype Event =
    | Called(verb: Verb, who: Caller, workId: Name)
    | Cached(number: nat)
    | Uncached
    | Wrote(number: nat, phase: Phase)
    | Rephased(phase: Phase)
    | Ran(number: nat)

  /** `touch` holds the lock of the table while it is there. */
  datatype State = State(
    name: Name, sh: Shared, starts: seq<Start>, ingest: Option<Ingest>, requests: seq<Request>,
    touch: Option<Touch>, log: seq<Event>)

  function Initial(name: Name): State {
    State(name, Nobody, [], None, [], None, [])
  }

  function Say(s: State, e: Event): State {
    s.(log := s.log + [e])
  }

  function SayIf(s: State, c: bool, e: Event): State {
    if c then Say(s, e) else s
  }

  // ---- Who wrote what a lookup reads ----

  datatype Version = Version(author: nat, phase: Phase)

  /** The start whose answer is in the cache, and the session and phase last written to the record. */
  datatype Hands = Hands(entry: Option<nat>, record: Option<Version>)

  function Handle(h: Hands, e: Event): Hands {
    match e
    case Cached(n) => h.(entry := Some(n))
    case Uncached => h.(entry := None)
    case Wrote(n, phase) => h.(record := Some(Version(n, phase)))
    case Rephased(phase) => if h.record.Some? then h.(record := Some(h.record.value.(phase := phase))) else h
    case _ => h
  }

  function HandsOf(log: seq<Event>): Hands {
    if log == [] then Hands(None, None) else Handle(HandsOf(log[..|log| - 1]), log[|log| - 1])
  }

  // ---- Starts ----

  function SetStage(s: State, n: nat, stage: Stage): State
    requires n < |s.starts|
  {
    s.(starts := s.starts[n := s.starts[n].(stage := stage)])
  }

  /** The broker opens the session and takes the first ticket; `bound` and `paid` are its answers. */
  function Ask(s: State, id: Identity, bound: bool, paid: bool): State {
    var n := |s.starts|;
    var s1 := s.(starts := s.starts + [Start(id, if bound && paid then Paid else Refused)]);
    var s2 := SayIf(s1, bound, Called(OpenSession, Session(n), id.workId));
    SayIf(s2, bound && paid, Called(Credit, Session(n), id.workId))
  }

  function DoRegister(s: State, n: nat, saveOk: bool): State {
    if n < |s.starts| && s.starts[n].stage.Paid? && s.touch.None? then
      if Admits(s.sh, saveOk)
      then Say(SetStage(s.(sh := Register(s.name, s.sh, n, s.starts[n].id, saveOk)), n, Registered), Wrote(n, Phase.Starting))
      else SetStage(s, n, Refused)
    else s
  }

  function DoAnswer(s: State, n: nat): State {
    if n < |s.starts| && s.starts[n].stage.Registered?
    then Say(SetStage(s.(sh := Upsert(s.sh, InfoFor(s.name, s.starts[n].id))), n, Answered), Cached(n))
    else s
  }

  // ---- Connects and runs ----

  function Move(s: State, to: Place): State
    requires s.ingest.Some?
  {
    s.(ingest := Some(s.ingest.value.(place := to)))
  }

  predicate AtPlace(s: State, place: Place) {
    s.ingest.Some? && s.ingest.value.place == place
  }

  /** One broadcaster at a time per name. */
  function ConnectRead(s: State): State {
    if s.ingest.Some? || s.touch.Some? then s
    else if s.sh.ctl.Some? then s.(ingest := Some(Ingest(s.sh.ctl.value.number, s.sh.ctl.value.id, Keyed)))
    else s.(starts := s.starts + [Start(NoIdentity, Unasked)], ingest := Some(Ingest(|s.starts|, NoIdentity, Keyed)))
  }

  function ConnectSave(s: State, ok: bool): State {
    if AtPlace(s, Keyed) then
      var i := s.ingest.value;
      SayIf(Move(s.(sh := FileConnect(s.name, s.sh, i.id, ok)), Filed), ok, Wrote(i.number, Streaming))
    else s
  }

  function ConnectRun(s: State): State {
    if AtPlace(s, Filed) && s.touch.None? then
      var i := s.ingest.value;
      Say(Move(s.(sh := Publish(s.name, s.sh, i.number, i.id)), Running), Ran(i.number))
    else s
  }

  /** The shell or the scheduler refuses; the record stays as it was written. */
  function ConnectFail(s: State): State {
    if AtPlace(s, Keyed) || AtPlace(s, Filed) then s.(ingest := None) else s
  }

  function RunDebit(s: State): State {
    if AtPlace(s, Running) && s.ingest.value.id.Paid()
    then Say(s, Called(Debit, Session(s.ingest.value.number), s.ingest.value.id.workId))
    else s
  }

  function RunUpdate(s: State, phase: Phase, ok: bool): State {
    if AtPlace(s, Running) && !phase.IsTerminal() && !phase.Closing? && ok && s.sh.record.Some?
    then Say(s.(sh := Rephase(s.sh, phase, ok)), Rephased(phase))
    else s
  }

  function RunClose(s: State): State {
    if AtPlace(s, Running) then
      var i := s.ingest.value;
      SayIf(Move(s, Settled), i.id.Paid(), Called(CloseSession, Session(i.number), i.id.workId))
    else s
  }

  function RunSave(s: State, reason: Reason, ok: bool): State {
    if AtPlace(s, Settled) then
      var phase := TerminalPhase(reason);
      SayIf(Move(s.(sh := Rephase(s.sh, phase, ok)), Saved), ok && s.sh.record.Some?, Rephased(phase))
    else s
  }

  function RunLeave(s: State): State {
    if AtPlace(s, Saved) && s.touch.None? then s.(sh := Leave(s.sh), ingest := None) else s
  }

  // ---- Requests ----

  predicate Asks(s: State, k: nat, at: At) {
    k < |s.requests| && s.requests[k].at == at
  }

  function Put(s: State, k: nat, r: Request): State
    requires k < |s.requests|
  {
    s.(requests := s.requests[k := r])
  }

  function Go(s: State, k: nat, at: At): State
    requires k < |s.requests|
  {
    Put(s, k, s.requests[k].(at := at))
  }

  function Enter(s: State, kind: Kind): State {
    s.(requests := s.requests + [Request(kind, Entered, None, None, None)])
  }

  function CheckPhase(s: State, k: nat): State {
    if !Asks(s, k, Entered) then s
    else if Active(s.sh) then Go(s, k, Checked)
    else SayIf(Go(s.(sh := Check(s.sh)), k, Turned), s.sh.record.Some?, Uncached)
  }

  function LookCache(s: State, k: nat): State {
    if !Asks(s, k, Checked) then s
    else if s.sh.entry.Some? then Put(s, k, s.requests[k].(at := Found, found := s.sh.entry))
    else Go(s, k, Missed)
  }

  function LookRecord(s: State, k: nat): State {
    if !Asks(s, k, Missed) then s
    else if s.sh.record.Some? then Put(s, k, s.requests[k].(at := Found, found := Some(InfoOf(s.sh.record.value))))
    else Go(s, k, Turned)
  }

  /** The ticket of a top-up goes to the work id the lookup gave. */
  function TopupCredit(s: State, k: nat, ok: bool): State {
    if Asks(s, k, Found) && s.requests[k].kind.Topup? && s.requests[k].found.Some? then
      if ok then Say(Go(s, k, Credited), Called(Credit, Asker(k), s.requests[k].found.value.workId)) else Go(s, k, Failed)
    else s
  }

  function TouchRead(s: State, k: nat): State {
    if Asks(s, k, Credited) && s.touch.None? then
      var h := HandsOf(s.log);
      if s.sh.ctl.Some? && s.sh.record.Some? && h.record.Some?
      then Go(s, k, Done).(touch := Some(Touch(h.record.value.author, s.sh.record.value)))
      else Go(s, k, Done)
    else s
  }

  function TouchSave(s: State, ok: bool): State {
    if s.touch.Some? then
      var t := s.touch.value;
      var s1 := s.(touch := None);
      if ok then Say(s1.(sh := s.sh.(record := Some(t.rec))), Wrote(t.author, t.rec.phase)) else s1
    else s
  }

  /** The end handler reads the record once more, to learn whether anybody has connected. */
  function EndRead(s: State, k: nat): State {
    if Asks(s, k, Found) && s.requests[k].kind.End? then
      if s.sh.record.Some? then Put(s, k, s.requests[k].(at := Read, phase := Some(s.sh.record.value.phase)))
      else Go(s, k, Turned)
    else s
  }

  function EndStop(s: State, k: nat, saveOk: bool): State {
    if !Asks(s, k, Read) || s.touch.Some? || s.requests[k].found.None? then s
    else if s.requests[k].found.value.streamId != s.name || s.sh.ctl.None? then Go(s, k, Stopped)
    else
      var c := s.sh.ctl.value;
      if c.running then Put(s, k, s.requests[k].(at := Waiting, waited := Some(c.number)))
      else SayIf(Go(s.(sh := Remove(s.sh, saveOk)), k, Stopped), saveOk, Wrote(c.number, Phase.Closed))
  }

  /** `Stop` returns when the run it cancelled is over. */
  function EndAwake(s: State, k: nat): State {
    if Asks(s, k, Waiting) && !(s.ingest.Some? && s.requests[k].waited == Some(s.ingest.value.number))
    then Go(s, k, Stopped)
    else s
  }

  /** The handler closes with the broker only if it had read that nobody connected. */
  function EndClose(s: State, k: nat, ok: bool): State {
    if Asks(s, k, Stopped) && s.requests[k].found.Some? then
      if s.requests[k].phase != Some(Phase.Starting) then Go(s, k, Dropping)
      else if ok then Say(Go(s, k, Dropping), Called(CloseSession, Asker(k), s.requests[k].found.value.workId))
      else Go(s, k, Failed)
    else s
  }

  function EndDrop(s: State, k: nat): State {
    if Asks(s, k, Dropping) then Say(Go(s.(sh := DropEntry(s.sh)), k, Done), Uncached) else s
  }

  /** A cache entry may be lost at any time. */
  function LoseEntry(s: State): State {
    Say(s.(sh := DropEntry(s.sh)), Uncached)
  }

  // ---- Steps and runs ----

  datatype StartStep = SAsk(id: Identity, bound: bool, paid: bool) | SRegister(n: nat, saveOk: bool) | SAnswer(n: nat)

  datatype IngestStep =
    | SConnectRead | SConnectSave(ok: bool) | SConnectRun | SConnectFail
    | SRunDebit | SRunUpdate(phase: Phase, ok: bool) | SRunClose | SRunSave(reason: Reason, ok: bool) | SRunLeave

  datatype RequestStep =
    | SEnter(kind: Kind) | SCheckPhase(k: nat) | SLookCache(k: nat) | SLookRecord(k: nat)
    | STopupCredit(k: nat, ok: bool) | STouchRead(k: nat) | STouchSave(ok: bool) | SLoseEntry

  datatype EndStep =
    | SEndRead(k: nat) | SEndStop(k: nat, saveOk: bool) | SEndAwake(k: nat) | SEndClose(k: nat, ok: bool) | SEndDrop(k: nat)

  datatype Step = Starts(a: StartStep) | Ingests(i: IngestStep) | Requests(r: RequestStep) | Ends(e: EndStep)

  /** A step that is not enabled changes nothing. */
  function NextStart(s: State, step: StartStep): State {
    match step
    case SAsk(id, bound, paid) => Ask(s, id, bound, paid)
    case SRegister(n, saveOk) => DoRegister(s, n, saveOk)
    case SAnswer(n) => DoAnswer(s, n)
  }

  function NextIngest(s: State, step: IngestStep): State {
    match step
    case SConnectRead => ConnectRead(s)
    case SConnectSave(ok) => ConnectSave(s, ok)
    case SConnectRun => ConnectRun(s)
    case SConnectFail => ConnectFail(s)
    case SRunDebit => RunDebit(s)
    case SRunUpdate(phase, ok) => RunUpdate(s, phase, ok)
    case SRunClose => RunClose(s)
    case SRunSave(reason, ok) => RunSave(s, reason, ok)
    case SRunLeave => RunLeave(s)
  }

  function NextRequest(s: State, step: RequestStep): State {
    match step
    case SEnter(kind) => Enter(s, kind)
    case SCheckPhase(k) => CheckPhase(s, k)
    case SLookCache(k) => LookCache(s, k)
    case SLookRecord(k) => LookRecord(s, k)
    case STopupCredit(k, ok) => TopupCredit(s, k, ok)
    case STouchRead(k) => TouchRead(s, k)
    case STouchSave(ok) => TouchSave(s, ok)
    case SLoseEntry => LoseEntry(s)
  }

  function NextEnd(s: State, step: EndStep): State {
    match step
    case SEndRead(k) => EndRead(s, k)
    case SEndStop(k, saveOk) => EndStop(s, k, saveOk)
    case SEndAwake(k) => EndAwake(s, k)
    case SEndClose(k, ok) => EndClose(s, k, ok)
    case SEndDrop(k) => EndDrop(s, k)
  }

  function Next(s: State, step: Step): State {
    match step
    case Starts(a) => NextStart(s, a)
    case Ingests(i) => NextIngest(s, i)
    case Requests(r) => NextRequest(s, r)
    case Ends(e) => NextEnd(s, e)
  }

  function Run(s: State, steps: seq<Step>): State {
    if steps == [] then s else Next(Run(s, steps[..|steps| - 1]), steps[|steps| - 1])
  }

  lemma RunSnoc(s: State, steps: seq<Step>, x: Step)
    ensures Run(s, steps + [x]) == Next(Run(s, steps), x)
  {
    assert (steps + [x])[..|steps|] == steps;
  }
}
