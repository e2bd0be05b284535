/** Runs of the two batch runners. A run talks to an environment that answers each call with success or
    an error, or kills the process in the middle of it; what the run leaves behind is its trace. A job
    that was not finished is run again from the beginning. */
module BatchRuns {
  import opened ChargeLedger
  import opened JobPhases

  /** `landed` matters for debits only: the receiver took the debit although the caller never heard so. */
  datatype Reply = Ok | Err(landed: bool) | Crash(landed: bool)

  datatype Effect =
    | Entered(phase: JobPhase)
    | LeaseAsked
    | LeaseDenied
    | LeaseTaken
    | LeaseReleased
    | Encoded              // the encoder ran through
    | Delivered            // an upload of encoded media went through
    | Landed(charge: Charge)

  datatype Outcome = Completed | Failed | Crashed

  /** The lease of a run: at most one, never asked for while held, given back once. */
  datatype LeaseState = Free | Asking | Held | Broken

  /** What a trace amounts to. `bare` counts encodes made without a lease; `earned` says that no charge
      was made before its media was delivered. */
  datatype View = View(
    lease: LeaseState, phases: seq<JobPhase>, encoded: nat, bare: nat, delivered: nat, charges: seq<Charge>, earned: bool)

  const Blank := View(Free, [], 0, 0, 0, [], true)

  function See(v: View, e: Effect): View {
    match e
    case Entered(p) => v.(phases := v.phases + [p])
    case LeaseAsked => v.(lease := if v.lease.Free? then Asking else Broken)
    case LeaseDenied => v.(lease := if v.lease.Asking? then Free else Broken)
    case LeaseTaken => v.(lease := if v.lease.Asking? then Held else Broken)
    case LeaseReleased => v.(lease := if v.lease.Held? then Free else Broken)
    case Encoded => v.(encoded := v.encoded + 1, bare := v.bare + if v.lease.Held? then 0 else 1)
    case Delivered => v.(delivered := v.delivered + 1)
    case Landed(c) => v.(charges := v.charges + [c], earned := v.earned && c.seq_ <= v.delivered <= v.encoded)
  }

  function ViewOf(trace: seq<Effect>): View {
    if trace == [] then Blank else See(ViewOf(trace[..|trace| - 1]), trace[|trace| - 1])
  }

  lemma ViewSnoc(trace: seq<Effect>, e: Effect)
    ensures ViewOf(trace + [e]) == See(ViewOf(trace), e)
  {
    assert (trace + [e])[..|trace|] == trace;
  }

  const FullPath := [Downloading, Probing, Encoding, Uploading, Complete]

  /** A run's phases: a stretch of the full path from its start, ended by an error if it failed. */
  ghost predicate PhasePath(phases: seq<JobPhase>) {
    phases <= FullPath || (|phases| > 0 && phases[|phases| - 1] == Error && phases[..|phases| - 1] < FullPath)
  }

  /** What holds of every run so far, whichever way it ends. `n` numbers may be charged, in order. */
  ghost predicate Lawful(v: View, a: Account, units: nat, n: nat) {
    && !v.lease.Broken?
    && v.earned
    && PhasePath(v.phases)
    && |v.charges| <= n
    && (forall k | 0 <= k < |v.charges| :: v.charges[k] == Charge(a, units, k + 1))
    && (Complete in v.phases ==> |v.charges| == n)
  }

  /** The contract of a run of `jobs` encodes: lawful throughout; no lease left behind unless the process
      died; every encode under a lease if there is a scheduler; completed only by way of the whole path,
      with every encode made and delivered. */
  ghost predicate RunContract(o: Outcome, v: View, scheduled: bool, jobs: nat, a: Account, units: nat, n: nat) {
    && Lawful(v, a, units, n)
    && (o.Completed? ==> v.phases == [Downloading, Probing, Encoding, Uploading, Complete] && v.encoded == v.delivered == jobs)
    && (!o.Crashed? ==> v.lease.Free?)
    && (scheduled ==> v.bare == 0)
  }

  /** A failed run says so in the record. */
  ghost predicate MarkedFailed(v: View) {
    |v.phases| > 0 && v.phases[|v.phases| - 1] == Error
  }

  // ---- Recording effects ----

  method Note(trace: seq<Effect>, e: Effect) returns (trace': seq<Effect>)
    ensures trace' == trace + [e] && ViewOf(trace') == See(ViewOf(trace), e)
  {
    trace' := trace + [e];
    ViewSnoc(trace, e);
  }

  /** `failJob`: mark the error; the mark itself may fail, or the process die. */
  method Fail(trace: seq<Effect>, r: Reply) returns (o: Outcome, trace': seq<Effect>)
    requires ViewOf(trace).phases < FullPath
    ensures !o.Completed? && (o.Crashed? <==> r.Crash?)
    ensures var v := ViewOf(trace);
      ViewOf(trace') == if r.Ok? then v.(phases := v.phases + [Error]) else v
    ensures PhasePath(ViewOf(trace').phases)
    ensures Complete !in ViewOf(trace').phases
  {
    o, trace' := if r.Crash? then Crashed else Failed, trace;
    if r.Ok? {
      trace' := Note(trace, Entered(Error));
      assert (ViewOf(trace).phases + [Error])[..|ViewOf(trace).phases|] == ViewOf(trace).phases;
    }
    ProperPrefix(ViewOf(trace).phases);
  }

  lemma ProperPrefix(phases: seq<JobPhase>)
    requires phases < FullPath
    ensures Complete !in phases && Error !in phases
    ensures Complete !in phases + [Error]
  {
    assert forall k | 0 <= k < |phases| :: phases[k] == FullPath[k];
  }

  /** Persist the next phase of the path, if the store takes it. */
  method Advance(trace: seq<Effect>, n: nat, r: Reply) returns (trace': seq<Effect>)
    requires n < |FullPath| && ViewOf(trace).phases == FullPath[..n]
    ensures var v := ViewOf(trace);
      ViewOf(trace') == if r.Ok? then v.(phases := FullPath[..n + 1]) else v
  {
    trace' := trace;
    if r.Ok? {
      trace' := Note(trace, Entered(FullPath[n]));
      assert FullPath[..n + 1] == FullPath[..n] + [FullPath[n]];
    }
  }

  function Ended(r: Reply): Outcome {
    if r.Crash? then Crashed else Failed
  }

  lemma PathPrefix(n: nat)
    requires n <= |FullPath|
    ensures PhasePath(FullPath[..n]) && FullPath[..n] <= FullPath
    ensures n < |FullPath| ==> FullPath[..n] < FullPath && Complete !in FullPath[..n]
  {
    if n < |FullPath| { ProperPrefix(FullPath[..n]); }
  }

  /** The answers on the way to the encoding phase: reading the job, making its directory, the three
      phase writes, the download and the probe. `mark` answers the error mark, if it comes to that. */
  datatype PrepReplies = PrepReplies(
    read: Reply, mkdir: Reply, downloading: Reply, fetch: Reply, probing: Reply, probe: Reply, encoding: Reply, mark: Reply)
  {
    predicate StoreUp() {
      read.Ok? && mkdir.Ok? && downloading.Ok? && probing.Ok? && encoding.Ok? && mark.Ok?
    }

    predicate AllOk() {
      read.Ok? && mkdir.Ok? && downloading.Ok? && fetch.Ok? && probing.Ok? && probe.Ok? && encoding.Ok?
    }

    predicate Survives() {
      !read.Crash? && !mkdir.Crash? && !downloading.Crash? && !fetch.Crash? && !probing.Crash? && !probe.Crash?
      && !encoding.Crash? && !mark.Crash?
    }
  }

  method Nothing() returns (trace: seq<Effect>)
    ensures ViewOf(trace) == Blank && FullPath[..0] == []
  {
    trace := [];
  }

  /** Download and probe: the way to the encoding phase, common to both runners. The VOD runner looks its
      preset up first. */
  method Prepare(known: bool, env: PrepReplies) returns (o: Outcome, trace: seq<Effect>)
    ensures o.Completed? <==> known && env.AllOk()
    ensures o.Completed? ==> ViewOf(trace) == Blank.(phases := FullPath[..3])
    ensures !o.Completed? ==>
      ViewOf(trace) == Blank.(phases := ViewOf(trace).phases) && PhasePath(ViewOf(trace).phases)
      && Complete !in ViewOf(trace).phases
    ensures o.Failed? && env.StoreUp() ==> MarkedFailed(ViewOf(trace))
    ensures env.Survives() ==> !o.Crashed?
  {
    hide ViewOf;
    trace := Nothing();
    PathPrefix(0);
    PathPrefix(1);
    PathPrefix(2);
    if !env.read.Ok? { return Ended(env.read), trace; }
    if !known { o, trace := Fail(trace, env.mark); return; }
    if !env.mkdir.Ok? { return Ended(env.mkdir), trace; }
    trace := Advance(trace, 0, env.downloading);
    if !env.downloading.Ok? { return Ended(env.downloading), trace; }
    if env.fetch.Crash? { return Crashed, trace; }
    if !env.fetch.Ok? { o, trace := Fail(trace, env.mark); return; }
    trace := Advance(trace, 1, env.probing);
    if !env.probing.Ok? { return Ended(env.probing), trace; }
    if env.probe.Crash? { return Crashed, trace; }
    if !env.probe.Ok? { o, trace := Fail(trace, env.mark); return; }
    trace := Advance(trace, 2, env.encoding);
    if !env.encoding.Ok? { return Ended(env.encoding), trace; }
    o := Completed;
  }

  /** Ask the scheduler for a lease, if there is a scheduler. */
  method TakeLease(trace: seq<Effect>, scheduled: bool, r: Reply) returns (trace': seq<Effect>)
    requires ViewOf(trace).lease.Free?
    ensures var v := ViewOf(trace);
      ViewOf(trace') == v.(lease := if !scheduled then Free else if r.Ok? then Held else if r.Err? then Free else Asking)
  {
    hide ViewOf;
    trace' := trace;
    if scheduled {
      trace' := Note(trace', LeaseAsked);
      if r.Ok? {
        trace' := Note(trace', LeaseTaken);
      } else if r.Err? {
        trace' := Note(trace', LeaseDenied);
      }
    }
  }

  method DropLease(trace: seq<Effect>) returns (trace': seq<Effect>)
    requires ViewOf(trace).lease.Free? || ViewOf(trace).lease.Held?
    ensures ViewOf(trace') == ViewOf(trace).(lease := Free)
  {
    hide ViewOf;
    trace' := trace;
    if ViewOf(trace).lease.Held? {
      trace' := Note(trace, LeaseReleased);
    }
  }

  /** A debit: it lands if it succeeds, and may land although it fails. */
  method Pay(trace: seq<Effect>, c: Charge, r: Reply) returns (trace': seq<Effect>)
    ensures var v := ViewOf(trace);
      ViewOf(trace') == if r.Ok? || r.landed then See(v, Landed(c)) else v
  {
    trace' := trace;
    if r.Ok? || r.landed {
      trace' := Note(trace, Landed(c));
    }
  }

  // ---- VOD ----

  /** `known`: the preset is in the catalogue. `billable`: payment is wired, the job names a work id, and
      its price is positive. */
  datatype VodJob = VodJob(known: bool, account: Account, units: nat, billable: bool)

  /** The answers after the encoding phase is entered. */
  datatype VodReplies = VodReplies(
    lease: Reply, encode: Reply, uploading: Reply, upload: Reply, debit: Reply, complete: Reply, mark: Reply)
  {
    predicate StoreUp() {
      uploading.Ok? && complete.Ok? && mark.Ok?
    }

    predicate AllOk(billable: bool, scheduled: bool) {
      (scheduled ==> lease.Ok?) && encode.Ok? && uploading.Ok? && upload.Ok? && (billable ==> debit.Ok?) && complete.Ok?
    }

    predicate Survives() {
      !lease.Crash? && !encode.Crash? && !uploading.Crash? && !upload.Crash? && !debit.Crash?
      && !complete.Crash? && !mark.Crash?
    }
  }

  /** The part of a VOD run after the lease: encode, upload, pay, complete. */
  method EncodeAndDeliver(job: VodJob, before: seq<Effect>, env: VodReplies) returns (o: Outcome, trace: seq<Effect>)
    requires var v := ViewOf(before);
      v == Blank.(phases := FullPath[..3], lease := v.lease) && !v.lease.Broken?
    ensures var v, n := ViewOf(trace), if job.billable then 1 else 0;
      && v.lease == ViewOf(before).lease
      && Lawful(v, job.account, job.units, n)
      && (o.Completed? ==> v.phases == FullPath && v.encoded == v.delivered == 1)
      && (v.lease.Held? ==> v.bare == 0)
      && (o.Failed? && env.StoreUp() ==> MarkedFailed(v))
    ensures o.Completed? <==> env.AllOk(job.billable, false)
    ensures env.Survives() ==> !o.Crashed?
  {
    hide ViewOf;
    trace := before;
    PathPrefix(3);
    PathPrefix(4);
    PathPrefix(5);
    if env.encode.Crash? { return Crashed, trace; }
    if !env.encode.Ok? { o, trace := Fail(trace, env.mark); return; }
    trace := Note(trace, Encoded);
    trace := Advance(trace, 3, env.uploading);
    if !env.uploading.Ok? { return Ended(env.uploading), trace; }
    if env.upload.Crash? { return Crashed, trace; }
    if !env.upload.Ok? { o, trace := Fail(trace, env.mark); return; }
    trace := Note(trace, Delivered);
    if job.billable {
      trace := Pay(trace, Charge(job.account, job.units, 1), env.debit);
      if env.debit.Crash? { return Crashed, trace; }
      if !env.debit.Ok? { o, trace := Fail(trace, env.mark); return; }
    }
    trace := Advance(trace, 4, env.complete);
    if !env.complete.Ok? { return Ended(env.complete), trace; }
    o := Completed;
  }

  /** `runOne` of the VOD runner. It completes exactly when every answer is a success; otherwise it fails,
      and is marked so unless the store failed too. The lease is given back on every way out but the
      death of the process. */
  method RunVod(job: VodJob, scheduled: bool, prep: PrepReplies, env: VodReplies)
    returns (o: Outcome, trace: seq<Effect>)
    ensures RunContract(o, ViewOf(trace), scheduled, 1, job.account, job.units, if job.billable then 1 else 0)
    ensures o.Completed? <==> job.known && prep.AllOk() && env.AllOk(job.billable, scheduled)
    ensures o.Failed? && prep.StoreUp() && env.StoreUp() ==> MarkedFailed(ViewOf(trace))
    ensures prep.Survives() && env.Survives() ==> !o.Crashed?
  {
    hide ViewOf;
    PathPrefix(3);
    o, trace := Prepare(job.known, prep);
    if !o.Completed? { return; }
    trace := TakeLease(trace, scheduled, env.lease);
    if scheduled && env.lease.Crash? { return Crashed, trace; }
    if scheduled && env.lease.Err? { o, trace := Fail(trace, env.mark); return; }
    o, trace := EncodeAndDeliver(job, trace, env);
    if !o.Crashed? {
      trace := DropLease(trace);
    }
  }

  // ---- ABR ----

  /** Whether a preset of the plan is known and has an output URL. */
  datatype Rendition = Rendition(known: bool, hasOutput: bool)

  datatype AbrPlan = AbrPlan(account: Account, units: nat, billable: bool, renditions: seq<Rendition>)
  {
    function Numbers(): nat {
      if billable then |renditions| else 0
    }
  }

  /** The answers to one rendition: lease, encoder, upload, debit, and the error mark if it comes to that. */
  datatype RenditionReplies = RenditionReplies(lease: Reply, encode: Reply, upload: Reply, debit: Reply, mark: Reply)
  {
    predicate AllOk(rend: Rendition, billable: bool, scheduled: bool) {
      rend.known && rend.hasOutput && (scheduled ==> lease.Ok?) && encode.Ok? && upload.Ok? && (billable ==> debit.Ok?)
    }

    predicate Survives() {
      !lease.Crash? && !encode.Crash? && !upload.Crash? && !debit.Crash? && !mark.Crash?
    }
  }

  /** After `i` renditions: `i` encoded and delivered, the first `i` numbers charged, no lease held. */
  ghost predicate Progress(v: View, plan: AbrPlan, scheduled: bool, i: nat) {
    && i <= |plan.renditions|
    && v.lease.Free? && v.earned && v.phases == FullPath[..3]
    && v.encoded == v.delivered == i && (scheduled ==> v.bare == 0)
    && |v.charges| == (if plan.billable then i else 0)
    && (forall k | 0 <= k < |v.charges| :: v.charges[k] == Charge(plan.account, plan.units, k + 1))
  }

  /** A lease for the encode alone, given back before anything else happens. */
  method EncodeRendition(rend: Rendition, scheduled: bool, before: seq<Effect>, a: RenditionReplies)
    returns (o: Outcome, trace: seq<Effect>)
    requires ViewOf(before).lease.Free? && ViewOf(before).phases == FullPath[..3]
    ensures o.Completed? <==> rend.known && (scheduled ==> a.lease.Ok?) && a.encode.Ok?
    ensures var v, v' := ViewOf(before), ViewOf(trace);
      && (o.Completed? ==> v' == v.(encoded := v.encoded + 1, bare := v.bare + if scheduled then 0 else 1))
      && (!o.Completed? ==> v' == v.(lease := v'.lease, phases := v'.phases) && !v'.lease.Broken?
                            && PhasePath(v'.phases) && Complete !in v'.phases && (o.Failed? ==> v'.lease.Free?)
                            && (o.Failed? && a.mark.Ok? ==> MarkedFailed(v')))
    ensures a.Survives() ==> !o.Crashed?
  {
    hide ViewOf;
    trace := before;
    PathPrefix(3);
    if !rend.known { o, trace := Fail(trace, a.mark); return; }
    trace := TakeLease(trace, scheduled, a.lease);
    if scheduled && a.lease.Crash? { return Crashed, trace; }
    if scheduled && a.lease.Err? { o, trace := Fail(trace, a.mark); return; }
    if a.encode.Crash? { return Crashed, trace; }
    if !a.encode.Ok? {
      trace := DropLease(trace);
      o, trace := Fail(trace, a.mark);
      return;
    }
    trace := Note(trace, Encoded);
    trace := DropLease(trace);
    o := Completed;
  }

  /** Upload what was encoded, then charge for it under its own number. */
  method DeliverRendition(plan: AbrPlan, i: nat, before: seq<Effect>, a: RenditionReplies)
    returns (o: Outcome, trace: seq<Effect>)
    requires i < |plan.renditions| && ViewOf(before).phases == FullPath[..3]
    ensures o.Completed? <==> plan.renditions[i].hasOutput && a.upload.Ok? && (plan.billable ==> a.debit.Ok?)
    ensures var v, v', c := ViewOf(before), ViewOf(trace), Charge(plan.account, plan.units, i + 1);
      && v' == v.(phases := v'.phases, delivered := v'.delivered, charges := v'.charges, earned := v'.earned)
      && (v'.charges == v.charges ==> v'.earned == v.earned)
      && (v'.charges != v.charges ==> v'.charges == v.charges + [c] && plan.billable
                                      && v'.earned == (v.earned && i < v'.delivered <= v.encoded))
      && v.delivered <= v'.delivered <= v.delivered + 1
      && (v'.charges != v.charges || o.Completed? ==> v'.delivered == v.delivered + 1)
      && (o.Completed? ==> v'.phases == v.phases && (plan.billable ==> v'.charges == v.charges + [c]))
      && (!o.Completed? ==> PhasePath(v'.phases) && Complete !in v'.phases
                            && (o.Failed? && a.mark.Ok? ==> MarkedFailed(v')))
    ensures a.Survives() ==> !o.Crashed?
  {
    hide ViewOf;
    trace := before;
    PathPrefix(3);
    if !plan.renditions[i].hasOutput { o, trace := Fail(trace, a.mark); return; }
    if a.upload.Crash? { return Crashed, trace; }
    if !a.upload.Ok? { o, trace := Fail(trace, a.mark); return; }
    trace := Note(trace, Delivered);
    if plan.billable {
      trace := Pay(trace, Charge(plan.account, plan.units, i + 1), a.debit);
      if a.debit.Crash? { return Crashed, trace; }
      if !a.debit.Ok? { o, trace := Fail(trace, a.mark); return; }
    }
    o := Completed;
  }

  /** One rendition: encode under a lease, then upload and debit. */
  method RunRendition(plan: AbrPlan, scheduled: bool, i: nat, before: seq<Effect>, a: RenditionReplies)
    returns (o: Outcome, trace: seq<Effect>)
    requires i < |plan.renditions| && Progress(ViewOf(before), plan, scheduled, i)
    ensures o.Completed? <==> a.AllOk(plan.renditions[i], plan.billable, scheduled)
    ensures o.Completed? ==> Progress(ViewOf(trace), plan, scheduled, i + 1)
    ensures !o.Completed? ==>
      RunContract(o, ViewOf(trace), scheduled, |plan.renditions|, plan.account, plan.units, plan.Numbers())
    ensures o.Failed? && a.mark.Ok? ==> MarkedFailed(ViewOf(trace))
    ensures a.Survives() ==> !o.Crashed?
  {
    hide ViewOf, PhasePath;
    o, trace := EncodeRendition(plan.renditions[i], scheduled, before, a);
    if o.Completed? {
      o, trace := DeliverRendition(plan, i, trace, a);
    }
  }

  /** The answers at the end: the phase write, the manifest and its upload, the final write, the mark. */
  datatype MasterReplies = MasterReplies(uploading: Reply, upload: Reply, complete: Reply, mark: Reply)
  {
    predicate AllOk() {
      uploading.Ok? && upload.Ok? && complete.Ok?
    }

    predicate StoreUp() {
      uploading.Ok? && complete.Ok? && mark.Ok?
    }

    predicate Survives() {
      !uploading.Crash? && !upload.Crash? && !complete.Crash? && !mark.Crash?
    }
  }

  /** The end of an ABR run: the manifest, its upload, the final phase. There is no manifest of nothing. */
  method PublishMaster(plan: AbrPlan, scheduled: bool, before: seq<Effect>, env: MasterReplies)
    returns (o: Outcome, trace: seq<Effect>)
    requires Progress(ViewOf(before), plan, scheduled, |plan.renditions|)
    ensures RunContract(o, ViewOf(trace), scheduled, |plan.renditions|, plan.account, plan.units, plan.Numbers())
    ensures o.Completed? <==> env.AllOk() && plan.renditions != []
    ensures o.Failed? && env.StoreUp() ==> MarkedFailed(ViewOf(trace))
    ensures env.Survives() ==> !o.Crashed?
  {
    hide ViewOf;
    trace := before;
    PathPrefix(3);
    PathPrefix(4);
    PathPrefix(5);
    trace := Advance(trace, 3, env.uploading);
    if !env.uploading.Ok? { return Ended(env.uploading), trace; }
    if plan.renditions == [] { o, trace := Fail(trace, env.mark); return; }
    if env.upload.Crash? { return Crashed, trace; }
    if !env.upload.Ok? { o, trace := Fail(trace, env.mark); return; }
    trace := Advance(trace, 4, env.complete);
    if !env.complete.Ok? { return Ended(env.complete), trace; }
    o := Completed;
  }

  /** `RunOne` of the ABR runner: the renditions one after the other, then the manifest. It completes
      exactly when every answer is a success and the plan is complete and not empty. */
  method RunAbr(plan: AbrPlan, scheduled: bool, prep: PrepReplies, rends: seq<RenditionReplies>, env: MasterReplies)
    returns (o: Outcome, trace: seq<Effect>)
    requires |rends| == |plan.renditions|
    ensures RunContract(o, ViewOf(trace), scheduled, |plan.renditions|, plan.account, plan.units, plan.Numbers())
    ensures o.Completed? <==>
      && prep.AllOk() && env.AllOk() && plan.renditions != []
      && forall k | 0 <= k < |rends| :: rends[k].AllOk(plan.renditions[k], plan.billable, scheduled)
    ensures o.Failed? && prep.StoreUp() && env.StoreUp() && (forall k | 0 <= k < |rends| :: rends[k].mark.Ok?) ==>
      MarkedFailed(ViewOf(trace))
    ensures prep.Survives() && env.Survives() && (forall k | 0 <= k < |rends| :: rends[k].Survives()) ==> !o.Crashed?
  {
    hide ViewOf;
    PathPrefix(3);
    o, trace := Prepare(true, prep);
    if !o.Completed? { return; }
    var i := 0;
    while i < |plan.renditions|
      invariant o.Completed? && Progress(ViewOf(trace), plan, scheduled, i)
      invariant forall k | 0 <= k < i :: rends[k].AllOk(plan.renditions[k], plan.billable, scheduled)
    {
      o, trace := RunRendition(plan, scheduled, i, trace, rends[i]);
      if !o.Completed? { return; }
      i := i + 1;
    }
    o, trace := PublishMaster(plan, scheduled, trace, env);
  }

  // ---- Any number of runs ----

  /** `history` is what reached the receiver, from this job's runs and from any other job, in any order:
      every charge to the account comes from one of the runs, and every charge of a run is in it. */
  ghost predicate Gathers(history: seq<Charge>, runs: seq<View>, a: Account) {
    && (forall j | 0 <= j < |history| && history[j].account == a ::
          exists r :: 0 <= r < |runs| && history[j] in runs[r].charges)
    && (forall r, k | 0 <= r < |runs| && 0 <= k < |runs[r].charges| :: runs[r].charges[k] in history)
  }

  /** Charge once: over any number of runs of one job, crashed, failed or completed, in any order and
      mixed with any other traffic, the receiver charges at most `n` times the units, and exactly that
      once some run reaches the final phase. `n` is 1 for VOD and the number of renditions for ABR. */
  lemma ChargeOnceAcrossRuns(runs: seq<View>, history: seq<Charge>, a: Account, units: nat, n: nat)
    requires forall r | 0 <= r < |runs| :: Lawful(runs[r], a, units, n)
    requires Gathers(history, runs, a)
    ensures var led := ReceiveAll(map[], history);
      && NoneBeyond(led, a, n)
      && ChargedUpTo(led, a, n) <= n * units
      && ((exists r :: 0 <= r < |runs| && Complete in runs[r].phases) ==> ChargedUpTo(led, a, n) == n * units)
  {
    forall j | 0 <= j < |history| && history[j].account == a
      ensures history[j].units == units && 1 <= history[j].seq_ <= n
    {
      var r :| 0 <= r < |runs| && history[j] in runs[r].charges;
    }
    ChargedOnce(history, a, units, n);
    if r :| 0 <= r < |runs| && Complete in runs[r].phases {
      forall k: nat | 1 <= k <= n ensures Seen(history, a, k) {
        var c := runs[r].charges[k - 1];
        assert c == Charge(a, units, k) && c in history;
        var j :| 0 <= j < |history| && history[j] == c;
      }
    }
  }

  // ---- Running a job again and again ----

  /** What the receiver makes of a history: at most `n` times the units, and exactly that if the job was
      completed. */
  ghost predicate ChargedRight(history: seq<Charge>, completed: bool, a: Account, units: nat, n: nat) {
    var led := ReceiveAll(map[], history);
    && NoneBeyond(led, a, n)
    && ChargedUpTo(led, a, n) <= n * units
    && (completed ==> ChargedUpTo(led, a, n) == n * units)
  }

  ghost predicate Elsewhere(cs: seq<Charge>, a: Account) {
    forall j | 0 <= j < |cs| :: cs[j].account != a
  }

  /** One more run, with other jobs' charges before it. */
  lemma GathersMore(history: seq<Charge>, runs: seq<View>, a: Account, others: seq<Charge>, v: View)
    requires Gathers(history, runs, a) && Elsewhere(others, a)
    ensures Gathers(history + others + v.charges, runs + [v], a)
  {
    var history', runs' := history + others + v.charges, runs + [v];
    assert forall j | |history| <= j < |history| + |others| :: history'[j] == others[j - |history|];
    forall j | 0 <= j < |history'| && history'[j].account == a
      ensures exists r :: 0 <= r < |runs'| && history'[j] in runs'[r].charges
    {
      if j < |history| {
        assert history'[j] == history[j];
        var r :| 0 <= r < |runs| && history[j] in runs[r].charges;
        assert runs'[r] == runs[r];
      } else {
        assert history'[j] == v.charges[j - |history| - |others|] && runs'[|runs|] == v;
      }
    }
    forall r, k | 0 <= r < |runs'| && 0 <= k < |runs'[r].charges| ensures runs'[r].charges[k] in history' {
      if r < |runs| {
        assert runs'[r] == runs[r] && runs[r].charges[k] in history;
      } else {
        assert history'[|history| + |others| + k] == v.charges[k];
      }
    }
  }

  /** One execution of a VOD job: what the environment answers, and what else reached the receiver before. */
  datatype VodAttempt = VodAttempt(prep: PrepReplies, env: VodReplies, others: seq<Charge>)

  /** A VOD job run any number of times, each run failing, crashing or completing as its environment has it:
      the receiver charges it at most once, and exactly once if some run went through. */
  method RerunVod(job: VodJob, scheduled: bool, attempts: seq<VodAttempt>) returns (history: seq<Charge>, completed: bool)
    requires forall k | 0 <= k < |attempts| :: Elsewhere(attempts[k].others, job.account)
    ensures completed <==> exists k :: 0 <= k < |attempts| && job.known && attempts[k].prep.AllOk()
                                       && attempts[k].env.AllOk(job.billable, scheduled)
    ensures ChargedRight(history, completed, job.account, job.units, if job.billable then 1 else 0)
  {
    hide ViewOf, PhasePath, Gathers;
    ghost var runs: seq<View> := [];
    ghost var n := if job.billable then 1 else 0;
    history, completed := [], false;
    assert Gathers(history, runs, job.account) by { NothingGathered(job.account); }
    for i := 0 to |attempts|
      invariant Gathers(history, runs, job.account)
      invariant forall r | 0 <= r < |runs| :: Lawful(runs[r], job.account, job.units, n)
      invariant completed ==> exists r :: 0 <= r < |runs| && Complete in runs[r].phases
      invariant completed <==> exists k :: 0 <= k < i && job.known && attempts[k].prep.AllOk()
                                           && attempts[k].env.AllOk(job.billable, scheduled)
    {
      var o, trace := RunVod(job, scheduled, attempts[i].prep, attempts[i].env);
      var v := ViewOf(trace);
      GathersMore(history, runs, job.account, attempts[i].others, v);
      AddRun(runs, v, completed, o.Completed?);
      history := history + attempts[i].others + v.charges;
      runs := runs + [v];
      completed := completed || o.Completed?;
    }
    ChargeOnceAcrossRuns(runs, history, job.account, job.units, n);
  }

  lemma NothingGathered(a: Account)
    ensures Gathers([], [], a)
  {
  }

  lemma AddRun(runs: seq<View>, v: View, before: bool, now: bool)
    requires before ==> exists r :: 0 <= r < |runs| && Complete in runs[r].phases
    requires now ==> v.phases == FullPath
    ensures before || now ==> exists r :: 0 <= r < |runs + [v]| && Complete in (runs + [v])[r].phases
  {
    if before {
      var r :| 0 <= r < |runs| && Complete in runs[r].phases;
      assert (runs + [v])[r] == runs[r];
    } else if now {
      assert (runs + [v])[|runs|] == v && v.phases[4] == Complete;
    }
  }

  /** One execution of an ABR job. */
  datatype AbrAttempt = AbrAttempt(prep: PrepReplies, rends: seq<RenditionReplies>, env: MasterReplies, others: seq<Charge>)
  {
    predicate AllOk(plan: AbrPlan, scheduled: bool)
      requires |rends| == |plan.renditions|
    {
      && prep.AllOk() && env.AllOk() && plan.renditions != []
      && forall k | 0 <= k < |rends| :: rends[k].AllOk(plan.renditions[k], plan.billable, scheduled)
    }
  }

  /** The same for an ABR job: at most once per rendition, and exactly that if some run went through. */
  method RerunAbr(plan: AbrPlan, scheduled: bool, attempts: seq<AbrAttempt>) returns (history: seq<Charge>, completed: bool)
    requires forall k | 0 <= k < |attempts| :: |attempts[k].rends| == |plan.renditions|
    requires forall k | 0 <= k < |attempts| :: Elsewhere(attempts[k].others, plan.account)
    ensures completed <==> exists k :: 0 <= k < |attempts| && attempts[k].AllOk(plan, scheduled)
    ensures ChargedRight(history, completed, plan.account, plan.units, plan.Numbers())
  {
    hide ViewOf, PhasePath, Gathers;
    ghost var runs: seq<View> := [];
    history, completed := [], false;
    assert Gathers(history, runs, plan.account) by { NothingGathered(plan.account); }
    for i := 0 to |attempts|
      invariant Gathers(history, runs, plan.account)
      invariant forall r | 0 <= r < |runs| :: Lawful(runs[r], plan.account, plan.units, plan.Numbers())
      invariant completed ==> exists r :: 0 <= r < |runs| && Complete in runs[r].phases
      invariant completed <==> exists k :: 0 <= k < i && attempts[k].AllOk(plan, scheduled)
    {
      var o, trace := RunAbr(plan, scheduled, attempts[i].prep, attempts[i].rends, attempts[i].env);
      var v := ViewOf(trace);
      GathersMore(history, runs, plan.account, attempts[i].others, v);
      AddRun(runs, v, completed, o.Completed?);
      history := history + attempts[i].others + v.charges;
      runs := runs + [v];
      completed := completed || o.Completed?;
    }
    ChargeOnceAcrossRuns(runs, history, plan.account, plan.units, plan.Numbers());
  }
}
