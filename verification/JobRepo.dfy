/** The phases of a batch job. */
module JobPhases {
  datatype JobPhase = Queued | Downloading | Probing | Encoding | Uploading | Complete | Error
  {
    predicate IsTerminal() {
      Complete? || Error?
    }
  }
}

/** The job repository: each operation reads a record, edits its phase and its list of phase timings, and
    writes it back. */
module JobRepo {
  import opened LiveTypes
  import opened JobPhases

  /** `end` is `None` while the phase lasts. */
  datatype Timing = Timing(phase: JobPhase, start: int, end: Option<int>)

  datatype Job = Job(vod: bool, phase: JobPhase, phases: seq<Timing>, errorCode: string, errorMessage: string)

  function CloseLast(ts: seq<Timing>, now: int): seq<Timing> {
    if |ts| > 0 && ts[|ts| - 1].end.None? then ts[|ts| - 1 := ts[|ts| - 1].(end := Some(now))] else ts
  }

  function Move(j: Job, to: JobPhase, now: int): Job {
    j.(phase := to,
       phases := CloseLast(j.phases, now) + [Timing(to, now, if to.IsTerminal() then Some(now) else None)])
  }

  function MoveToError(j: Job, code: string, msg: string, now: int): Job {
    Move(j, Error, now).(errorCode := code, errorMessage := msg)
  }

  class Repo {
    var jobs: map<string, Job>

    /** Read, edit, write. A missing job is an error and changes nothing; so is a failed write. */
    method Transition(id: string, to: JobPhase, now: int, writeOk: bool) returns (ok: bool)
      modifies this
      ensures ok <==> id in old(jobs) && id != "" && writeOk
      ensures jobs == if ok then old(jobs)[id := Move(old(jobs)[id], to, now)] else old(jobs)
    {
      if id !in jobs {
        return false;
      }
      var j := jobs[id];
      var n := |j.phases|;
      if n > 0 && j.phases[n - 1].end.None? {
        j := j.(phases := j.phases[n - 1 := j.phases[n - 1].(end := Some(now))]);
      }
      j := j.(phase := to, phases := j.phases + [Timing(to, now, None)]);
      if to.IsTerminal() {
        var last := |j.phases| - 1;
        j := j.(phases := j.phases[last := j.phases[last].(end := Some(now))]);
        assert j.phases == CloseLast(jobs[id].phases, now) + [Timing(to, now, Some(now))];
      }
      ok := Save(id, j, writeOk);
    }

    method MarkError(id: string, code: string, msg: string, now: int, writeOk: bool) returns (ok: bool)
      modifies this
      ensures ok <==> id in old(jobs) && id != "" && writeOk
      ensures jobs == if ok then old(jobs)[id := MoveToError(old(jobs)[id], code, msg, now)] else old(jobs)
    {
      if id !in jobs {
        return false;
      }
      var j := jobs[id].(errorCode := code, errorMessage := msg);
      var n := |j.phases|;
      if n > 0 && j.phases[n - 1].end.None? {
        j := j.(phases := j.phases[n - 1 := j.phases[n - 1].(end := Some(now))]);
      }
      j := j.(phase := Error, phases := j.phases + [Timing(Error, now, Some(now))]);
      ok := Save(id, j, writeOk);
    }

    method Save(id: string, j: Job, writeOk: bool) returns (ok: bool)
      modifies this
      ensures ok <==> id != "" && writeOk
      ensures jobs == if ok then old(jobs)[id := j] else old(jobs)
    {
      ok := id != "" && writeOk;
      if ok {
        jobs := jobs[id := j];
      }
    }
  }

  // ---- The timeline of a job ----

  datatype Op = To(phase: JobPhase, now: int) | Fail(code: string, msg: string, now: int)

  function Perform(j: Job, op: Op): Job {
    match op
    case To(phase, now) => Move(j, phase, now)
    case Fail(code, msg, now) => MoveToError(j, code, msg, now)
  }

  function PerformAll(j: Job, ops: seq<Op>): Job {
    if ops == [] then j else Perform(PerformAll(j, ops[..|ops| - 1]), ops[|ops| - 1])
  }

  /** A timing that is over, in order, and closed at its start if the phase is terminal. */
  ghost predicate Over(t: Timing) {
    t.end.Some? && t.start <= t.end.value && (Last(t.phase) ==> t.end.value == t.start)
  }

  /** The phases in which a job is over. */
  ghost predicate Last(phase: JobPhase) {
    phase == Complete || phase == Error
  }

  /** The next timing starts where this one ends; after a terminal phase it may start later. */
  ghost predicate Abuts(t: Timing, next: Timing) {
    Over(t) && t.end.value <= next.start && (!Last(t.phase) ==> t.end.value == next.start)
  }

  /** A well-formed timeline, all of it no later than `now`. */
  ghost predicate Timeline(j: Job, now: int) {
    var ts := j.phases; var n := |ts|;
    n > 0 ==>
      && ts[n - 1].phase == j.phase
      && ts[n - 1].start <= now
      && (ts[n - 1].end.None? <==> !Last(j.phase))
      && (Last(j.phase) ==> Over(ts[n - 1]))
      && forall k | 0 <= k < n - 1 :: Abuts(ts[k], ts[k + 1])
  }

  lemma MoveKeepsTimeline(j: Job, to: JobPhase, before: int, now: int)
    requires Timeline(j, before) && before <= now
    ensures Timeline(Move(j, to, now), now)
  {
    var ts, ts' := j.phases, Move(j, to, now).phases;
    var n := |ts|;
    forall k | 0 <= k < |ts'| - 1 ensures Abuts(ts'[k], ts'[k + 1]) {
      if k < n - 1 {
        assert Abuts(ts[k], ts[k + 1]);
        assert ts'[k] == ts[k] && ts'[k + 1].start == ts[k + 1].start;
      }
    }
  }

  /** Instants of a list of operations do not decrease. */
  ghost predicate Clockwise(ops: seq<Op>) {
    forall a, b | 0 <= a < b < |ops| :: ops[a].now <= ops[b].now
  }

  /** Job timeline: for any sequence of transitions and error marks under a clock that does not run back,
      starting from a record without timings, the last timing is that of the job's phase, only it can be
      open and it is open exactly while the phase is not terminal, and the timings are ordered and abut,
      except that a gap may follow a terminal phase. */
  lemma {:induction false} JobTimeline(j: Job, ops: seq<Op>)
    requires j.phases == [] && ops != [] && Clockwise(ops)
    ensures Timeline(PerformAll(j, ops), ops[|ops| - 1].now)
    ensures |PerformAll(j, ops).phases| == |ops|
  {
    var init, op := ops[..|ops| - 1], ops[|ops| - 1];
    var to := if op.To? then op.phase else Error;
    if init == [] {
      MoveKeepsTimeline(j, to, op.now, op.now);
    } else {
      JobTimeline(j, init);
      MoveKeepsTimeline(PerformAll(j, init), to, init[|init| - 1].now, op.now);
    }
  }

  /** Every phase the operations asked for is in the timings, in order, at its instant. */
  lemma {:induction false} TimelineRecordsAll(j: Job, ops: seq<Op>, k: nat)
    requires j.phases == [] && k < |ops|
    ensures |PerformAll(j, ops).phases| == |ops|
    ensures var t := PerformAll(j, ops).phases[k];
      t.start == ops[k].now && t.phase == if ops[k].To? then ops[k].phase else Error
  {
    hide CloseLast;
    var init, op := ops[..|ops| - 1], ops[|ops| - 1];
    if k < |init| {
      TimelineRecordsAll(j, init, k);
    } else if init != [] {
      TimelineRecordsAll(j, init, 0);
    }
    CloseLastKeeps(PerformAll(j, init).phases, op.now);
  }

  lemma CloseLastKeeps(ts: seq<Timing>, now: int)
    ensures var ts' := CloseLast(ts, now);
      |ts'| == |ts| && forall k | 0 <= k < |ts| :: ts'[k].phase == ts[k].phase && ts'[k].start == ts[k].start
  {
  }

  // ---- Resuming ----

  datatype Stored = Stored(id: string, job: Job)

  /** `ResumeAll` over the list the store returns: the ids to queue again. */
  method ResumeAll(records: seq<Stored>) returns (ids: seq<string>)
    ensures ids == Resumable(records)
  {
    ids := [];
    for i := 0 to |records|
      invariant ids == Resumable(records[..i])
    {
      assert records[..i + 1][..i] == records[..i];
      if !records[i].job.phase.IsTerminal() {
        if records[i].job.vod {
          ids := ids + [records[i].id];
        }
      }
    }
    assert records[..|records|] == records;
  }

  function Resumable(records: seq<Stored>): seq<string> {
    if records == [] then []
    else
      var rest, r := Resumable(records[..|records| - 1]), records[|records| - 1];
      if r.job.vod && !r.job.phase.IsTerminal() then rest + [r.id] else rest
  }

  /** Exactly the unfinished VOD jobs are queued again. */
  lemma {:induction false} ResumesUnfinished(records: seq<Stored>, id: string)
    ensures id in Resumable(records) <==>
      exists k :: 0 <= k < |records| && records[k].id == id && records[k].job.vod && !Last(records[k].job.phase)
  {
    if records != [] {
      var init, r := records[..|records| - 1], records[|records| - 1];
      ResumesUnfinished(init, id);
      if id in Resumable(init) {
        var k :| 0 <= k < |init| && init[k].id == id && init[k].job.vod && !Last(init[k].job.phase);
        assert records[k] == init[k];
      }
      if id == r.id && r.job.vod && !r.job.phase.IsTerminal() { assert records[|records| - 1] == r; }
      if k :| 0 <= k < |records| && records[k].id == id && records[k].job.vod && !Last(records[k].job.phase) {
        assert k < |init| ==> init[k] == records[k];
      }
    }
  }

  // ---- The error of a job ----

  /** Operation `k` is the last that marks an error. */
  ghost predicate LastMark(ops: seq<Op>, k: nat) {
    k < |ops| && ops[k].Fail? && forall m | k < m < |ops| :: !ops[m].Fail?
  }

  /** The record tells the last error that was marked, code and message, whatever phases came after. */
  lemma {:induction false} LastErrorTold(j: Job, ops: seq<Op>, k: nat)
    requires LastMark(ops, k)
    ensures PerformAll(j, ops).errorCode == ops[k].code && PerformAll(j, ops).errorMessage == ops[k].msg
  {
    hide CloseLast;
    var init := ops[..|ops| - 1];
    if k < |init| {
      assert init[k] == ops[k] && forall m | k < m < |init| :: init[m] == ops[m];
      LastErrorTold(j, init, k);
    }
  }

  /** Without a mark it keeps the error it had; and it is in the phase that was asked for last. */
  lemma {:induction false} ErrorStays(j: Job, ops: seq<Op>)
    ensures var j' := PerformAll(j, ops);
      && ((forall m | 0 <= m < |ops| :: !ops[m].Fail?) ==> j'.errorCode == j.errorCode && j'.errorMessage == j.errorMessage)
      && j'.vod == j.vod
      && j'.phase == (if ops == [] then j.phase else if ops[|ops| - 1].To? then ops[|ops| - 1].phase else Error)
  {
    hide CloseLast;
    if ops != [] { ErrorStays(j, ops[..|ops| - 1]); }
  }
}
