/** The scheduler under any interleaving of any number of callers. A step is one critical section of
    the lock, or a context being cancelled. A parked batch caller sleeps on the condition variable until
    it is signalled; a broadcast signals every sleeper; a caller's watcher goroutine broadcasts once
    after the caller's context is cancelled. */
module SchedulerSteps {
  import opened Scheduler

  datatype Lease = Lease(workload: Workload, slots: int, cost: int, released: bool)

  /** A batch caller inside `Acquire`, or one that has returned. `watching` says that the context was
      cancelled and the watcher has yet to broadcast. */
  datatype Caller =
    | Waiting(slots: int, cost: int, cancelled: bool, signalled: bool, watching: bool)
    | Returned(admitted: bool)

  datatype System = System(counters: Counters, leases: seq<Lease>, callers: seq<Caller>)

  const Start := System(Idle, [], [])

  datatype Step =
    | AcquireLive(r: Request)
    | AcquireBatch(r: Request, cancelled: bool)
    | Wake(caller: nat)
    | Cancel(caller: nat)
    | Broadcast(caller: nat)
    | LateBroadcast
    | Release(lease: nat)

  function Signal(c: Caller): Caller {
    if c.Waiting? then c.(signalled := true) else c
  }

  function SignalAll(cs: seq<Caller>): (r: seq<Caller>)
    ensures |r| == |cs| && forall k | 0 <= k < |cs| :: r[k] == Signal(cs[k])
  {
    if cs == [] then [] else SignalAll(cs[..|cs| - 1]) + [Signal(cs[|cs| - 1])]
  }

  /** One pass of caller `k` through the batch loop. */
  function Pass(l: Limits, s: System, k: nat): System
    requires k < |s.callers| && s.callers[k].Waiting?
  {
    var c := s.callers[k];
    match Decide(l, s.counters, c.slots, c.cost, c.cancelled)
    case Admitted => System(Queue(Take(s.counters, Batch, c.slots, c.cost), -1),
                            s.leases + [Lease(Batch, c.slots, c.cost, false)],
                            s.callers[k := Returned(true)])
    case Refused => s.(counters := Queue(s.counters, -1), callers := s.callers[k := Returned(false)])
    case Parked => s.(callers := s.callers[k := c.(signalled := false)])
  }

  function Enter(s: System, r: Request, cancelled: bool): System {
    s.(counters := Queue(s.counters, 1),
       callers := s.callers + [Waiting(r.Slots(), r.Cost(), cancelled, true, cancelled)])
  }

  function GiveBack(s: System, k: nat): System
    requires k < |s.leases|
  {
    var e := s.leases[k];
    System(Take(s.counters, e.workload, -e.slots, -e.cost), s.leases[k := e.(released := true)], SignalAll(s.callers))
  }

  /** A step that is not enabled changes nothing. */
  function Next(l: Limits, s: System, step: Step): System {
    match step
    case AcquireLive(r) =>
      if TooLarge(l, r) || !CanLive(l, s.counters, r.Slots(), r.Cost()) then s
      else s.(counters := Take(s.counters, Live, r.Slots(), r.Cost()),
              leases := s.leases + [Lease(Live, r.Slots(), r.Cost(), false)])
    case AcquireBatch(r, cancelled) =>
      if TooLarge(l, r) then s else Pass(l, Enter(s, r, cancelled), |s.callers|)
    case Wake(k) =>
      if k < |s.callers| && s.callers[k].Waiting? && s.callers[k].signalled then Pass(l, s, k) else s
    case Cancel(k) =>
      if k < |s.callers| && s.callers[k].Waiting? && !s.callers[k].cancelled
      then s.(callers := s.callers[k := s.callers[k].(cancelled := true, watching := true)])
      else s
    case Broadcast(k) =>
      if k < |s.callers| && s.callers[k].Waiting? && s.callers[k].watching
      then s.(callers := SignalAll(s.callers[k := s.callers[k].(watching := false)]))
      else s
    case LateBroadcast => s.(callers := SignalAll(s.callers))
    case Release(k) =>
      if k < |s.leases| && !s.leases[k].released then GiveBack(s, k) else s
  }

  function Run(l: Limits, s: System, steps: seq<Step>): System {
    if steps == [] then s else Next(l, Run(l, s, steps[..|steps| - 1]), steps[|steps| - 1])
  }

  // ---- Conservation ----

  /** Slots and cost held by unreleased leases of one class. */
  function SlotsHeld(leases: seq<Lease>, w: Workload): int {
    if leases == [] then 0
    else
      var e := leases[|leases| - 1];
      SlotsHeld(leases[..|leases| - 1], w) + if e.workload == w && !e.released then e.slots else 0
  }

  function CostHeld(leases: seq<Lease>, w: Workload): int {
    if leases == [] then 0
    else
      var e := leases[|leases| - 1];
      CostHeld(leases[..|leases| - 1], w) + if e.workload == w && !e.released then e.cost else 0
  }

  function InsideAcquire(cs: seq<Caller>): int {
    if cs == [] then 0 else InsideAcquire(cs[..|cs| - 1]) + if cs[|cs| - 1].Waiting? then 1 else 0
  }

  /** Every counter is the sum it stands for. */
  ghost predicate Conserved(s: System) {
    var c := s.counters;
    && c.activeBatch == SlotsHeld(s.leases, Batch)
    && c.activeLive == SlotsHeld(s.leases, Live)
    && c.activeBatchCost == CostHeld(s.leases, Batch)
    && c.activeLiveCost == CostHeld(s.leases, Live)
    && c.active == c.activeBatch + c.activeLive
    && c.activeCost == c.activeBatchCost + c.activeLiveCost
    && c.queuedBatch == InsideAcquire(s.callers)
  }

  ghost predicate Positive(s: System) {
    && (forall k | 0 <= k < |s.leases| :: s.leases[k].slots > 0 && s.leases[k].cost > 0)
    && (forall k | 0 <= k < |s.callers| && s.callers[k].Waiting? :: s.callers[k].slots > 0 && s.callers[k].cost > 0)
  }

  lemma HeldSnoc(leases: seq<Lease>, e: Lease, w: Workload)
    ensures SlotsHeld(leases + [e], w) == SlotsHeld(leases, w) + (if e.workload == w && !e.released then e.slots else 0)
    ensures CostHeld(leases + [e], w) == CostHeld(leases, w) + (if e.workload == w && !e.released then e.cost else 0)
  {
    assert (leases + [e])[..|leases|] == leases;
  }

  lemma {:induction false} HeldReleased(leases: seq<Lease>, k: nat, w: Workload)
    requires k < |leases| && !leases[k].released
    ensures var e, leases' := leases[k], leases[k := leases[k].(released := true)];
      && SlotsHeld(leases', w) == SlotsHeld(leases, w) - (if e.workload == w then e.slots else 0)
      && CostHeld(leases', w) == CostHeld(leases, w) - (if e.workload == w then e.cost else 0)
  {
    var leases' := leases[k := leases[k].(released := true)];
    var n := |leases| - 1;
    if k < n {
      HeldReleased(leases[..n], k, w);
      assert leases'[..n] == leases[..n][k := leases[k].(released := true)];
    } else {
      assert leases'[..n] == leases[..n];
    }
  }

  lemma {:induction false} HeldNonNegative(leases: seq<Lease>, w: Workload)
    requires forall k | 0 <= k < |leases| :: leases[k].slots > 0 && leases[k].cost > 0
    ensures SlotsHeld(leases, w) >= 0 && CostHeld(leases, w) >= 0
  {
    if leases != [] { HeldNonNegative(leases[..|leases| - 1], w); }
  }

  lemma InsideSnoc(cs: seq<Caller>, c: Caller)
    ensures InsideAcquire(cs + [c]) == InsideAcquire(cs) + if c.Waiting? then 1 else 0
  {
    assert (cs + [c])[..|cs|] == cs;
  }

  lemma {:induction false} InsideUpdate(cs: seq<Caller>, k: nat, c: Caller)
    requires k < |cs| && cs[k].Waiting?
    ensures InsideAcquire(cs[k := c]) == InsideAcquire(cs) - if c.Waiting? then 0 else 1
  {
    var n := |cs| - 1;
    if k < n {
      InsideUpdate(cs[..n], k, c);
      assert cs[k := c][..n] == cs[..n][k := c];
    } else {
      assert cs[k := c][..n] == cs[..n];
    }
  }

  lemma {:induction false} InsideSignalled(cs: seq<Caller>)
    ensures InsideAcquire(SignalAll(cs)) == InsideAcquire(cs)
  {
    if cs != [] {
      InsideSignalled(cs[..|cs| - 1]);
      InsideSnoc(SignalAll(cs[..|cs| - 1]), Signal(cs[|cs| - 1]));
    }
  }

  lemma PassConserves(l: Limits, s: System, k: nat)
    requires k < |s.callers| && s.callers[k].Waiting? && Conserved(s) && Positive(s)
    ensures Conserved(Pass(l, s, k)) && Positive(Pass(l, s, k))
  {
    hide SlotsHeld, CostHeld, InsideAcquire;
    var c := s.callers[k];
    HeldSnoc(s.leases, Lease(Batch, c.slots, c.cost, false), Batch);
    HeldSnoc(s.leases, Lease(Batch, c.slots, c.cost, false), Live);
    InsideUpdate(s.callers, k, Returned(true));
    InsideUpdate(s.callers, k, Returned(false));
    InsideUpdate(s.callers, k, c.(signalled := false));
  }

  lemma ReleaseConserves(s: System, k: nat)
    requires k < |s.leases| && !s.leases[k].released && Conserved(s) && Positive(s)
    ensures Conserved(GiveBack(s, k)) && Positive(GiveBack(s, k))
  {
    hide SlotsHeld, CostHeld, InsideAcquire;
    HeldReleased(s.leases, k, Batch);
    HeldReleased(s.leases, k, Live);
    InsideSignalled(s.callers);
  }

  lemma NextConserves(l: Limits, s: System, step: Step)
    requires Conserved(s) && Positive(s)
    ensures Conserved(Next(l, s, step)) && Positive(Next(l, s, step))
  {
    hide SlotsHeld, CostHeld, InsideAcquire, Pass, GiveBack;
    match step
    case AcquireLive(r) =>
      HeldSnoc(s.leases, Lease(Live, r.Slots(), r.Cost(), false), Batch);
      HeldSnoc(s.leases, Lease(Live, r.Slots(), r.Cost(), false), Live);
    case AcquireBatch(r, cancelled) =>
      if !TooLarge(l, r) {
        InsideSnoc(s.callers, Waiting(r.Slots(), r.Cost(), cancelled, true, cancelled));
        PassConserves(l, Enter(s, r, cancelled), |s.callers|);
      }
    case Wake(k) =>
      if k < |s.callers| && s.callers[k].Waiting? && s.callers[k].signalled { PassConserves(l, s, k); }
    case Cancel(k) =>
      if k < |s.callers| && s.callers[k].Waiting? {
        InsideUpdate(s.callers, k, s.callers[k].(cancelled := true, watching := true));
      }
    case Broadcast(k) =>
      if k < |s.callers| && s.callers[k].Waiting? && s.callers[k].watching {
        var c := s.callers[k].(watching := false);
        InsideUpdate(s.callers, k, c);
        InsideSignalled(s.callers[k := c]);
      }
    case LateBroadcast =>
      InsideSignalled(s.callers);
    case Release(k) =>
      if k < |s.leases| && !s.leases[k].released { ReleaseConserves(s, k); }
  }

  /** Conservation: in every reachable state each counter is the sum over unreleased leases of its class,
      and the queue counter is the number of batch callers inside `Acquire`. */
  lemma {:induction false} Conservation(l: Limits, steps: seq<Step>)
    ensures var s := Run(l, Start, steps); Conserved(s) && Positive(s)
  {
    hide Next;
    if steps != [] {
      var init := steps[..|steps| - 1];
      Conservation(l, init);
      NextConserves(l, Run(l, Start, init), steps[|steps| - 1]);
    }
  }

  // ---- Capacity ----

  /** The hard limits, and the cap on batch work that keeps the live reserve free of it. */
  ghost predicate WithinLimits(l: Limits, c: Counters) {
    && 0 <= c.activeLive && 0 <= c.activeBatch <= l.total - l.liveReserved
    && 0 <= c.activeLiveCost && 0 <= c.activeBatchCost <= l.totalCost - l.liveCostReserved
    && c.active == c.activeBatch + c.activeLive <= l.total
    && c.activeCost == c.activeBatchCost + c.activeLiveCost <= l.totalCost
  }

  lemma NextWithinLimits(l: Limits, s: System, step: Step)
    requires Sound(l) && WithinLimits(l, s.counters) && Conserved(s) && Positive(s)
    ensures WithinLimits(l, Next(l, s, step).counters)
  {
    hide SlotsHeld, CostHeld, InsideAcquire;
    NextConserves(l, s, step);
    var s' := Next(l, s, step);
    HeldNonNegative(s'.leases, Batch);
    HeldNonNegative(s'.leases, Live);
  }

  /** Capacity: in every reachable state the totals are respected, and batch work alone never reaches
      into the share reserved for live. */
  lemma {:induction false} Capacity(l: Limits, steps: seq<Step>)
    requires Sound(l)
    ensures WithinLimits(l, Run(l, Start, steps).counters)
  {
    hide Next;
    if steps != [] {
      var init := steps[..|steps| - 1];
      Capacity(l, init);
      Conservation(l, init);
      NextWithinLimits(l, Run(l, Start, init), steps[|steps| - 1]);
    }
  }

  // ---- Who is admitted, told by the leases alone ----

  /** Slots and cost held by all unreleased leases. */
  function AllSlots(leases: seq<Lease>): int {
    SlotsHeld(leases, Batch) + SlotsHeld(leases, Live)
  }

  function AllCost(leases: seq<Lease>): int {
    CostHeld(leases, Batch) + CostHeld(leases, Live)
  }

  /** What is held and the request together stay within the share of batch. */
  ghost predicate FitsBatchShare(l: Limits, leases: seq<Lease>, slots: int, cost: int) {
    && AllSlots(leases) + slots <= l.total - l.liveReserved
    && AllCost(leases) + cost <= l.totalCost - l.liveCostReserved
  }

  /** Batch admission, exactly: in every reachable state a batch request larger than the totals is refused and
      leaves no trace; any other is admitted, with its own slots and cost, if and only if what all unreleased
      leases hold and the request fit the batch share; if not, it gives up if cancelled and waits if not. */
  lemma BatchAdmission(l: Limits, steps: seq<Step>, r: Request, cancelled: bool)
    ensures var s := Run(l, Start, steps);
      var s', n := Next(l, s, AcquireBatch(r, cancelled)), |s.callers|;
      var slots := if r.slots <= 0 then 1 else r.slots;
      var cost := if r.cost <= 0 then 100 * slots else r.cost;
      if slots > l.total || cost > l.totalCost then s' == s
      else
        && |s'.callers| == n + 1
        && (s'.callers[n] == Returned(true) <==> FitsBatchShare(l, s.leases, slots, cost))
        && (s'.callers[n] == Returned(false) <==> !FitsBatchShare(l, s.leases, slots, cost) && cancelled)
        && (s'.callers[n].Waiting? ==> s'.callers[n].slots == slots && s'.callers[n].cost == cost && !s'.callers[n].cancelled)
        && s'.leases == if FitsBatchShare(l, s.leases, slots, cost) then s.leases + [Lease(Batch, slots, cost, false)] else s.leases
  {
    hide Run, SlotsHeld, CostHeld, InsideAcquire;
    Conservation(l, steps);
  }

  /** The same for a caller that was waiting and is woken. */
  lemma WokenAdmission(l: Limits, steps: seq<Step>, k: nat)
    requires var s := Run(l, Start, steps); k < |s.callers| && s.callers[k].Waiting? && s.callers[k].signalled
    ensures var s := Run(l, Start, steps);
      var s', c := Next(l, s, Wake(k)), s.callers[k];
      && |s'.callers| == |s.callers|
      && (s'.callers[k] == Returned(true) <==> FitsBatchShare(l, s.leases, c.slots, c.cost))
      && (s'.callers[k] == Returned(false) <==> !FitsBatchShare(l, s.leases, c.slots, c.cost) && c.cancelled)
      && (s'.callers[k].Waiting? ==> s'.callers[k] == c.(signalled := false))
      && s'.leases == if FitsBatchShare(l, s.leases, c.slots, c.cost) then s.leases + [Lease(Batch, c.slots, c.cost, false)] else s.leases
  {
    hide Run, SlotsHeld, CostHeld, InsideAcquire;
    Conservation(l, steps);
  }

  /** Live admission, exactly: a live request is admitted at once if what all unreleased leases hold and the
      request fit the totals, and refused at once if not. */
  lemma LiveAdmission(l: Limits, steps: seq<Step>, r: Request)
    ensures var s := Run(l, Start, steps);
      var slots := if r.slots <= 0 then 1 else r.slots;
      var cost := if r.cost <= 0 then 100 * slots else r.cost;
      var fits := AllSlots(s.leases) + slots <= l.total && AllCost(s.leases) + cost <= l.totalCost;
      var s' := Next(l, s, AcquireLive(r));
      && s'.callers == s.callers
      && s'.leases == if fits then s.leases + [Lease(Live, slots, cost, false)] else s.leases
  {
    hide Run;
    Conservation(l, steps);
    var s := Run(l, Start, steps);
    HeldNonNegative(s.leases, Batch);
    HeldNonNegative(s.leases, Live);
  }

  /** A release frees what the lease held, once: a second one changes nothing. */
  lemma ReleaseFrees(l: Limits, steps: seq<Step>, k: nat)
    requires k < |Run(l, Start, steps).leases|
    ensures var s := Run(l, Start, steps);
      var s', e := Next(l, s, Release(k)), s.leases[k];
      && AllSlots(s'.leases) == AllSlots(s.leases) - (if e.released then 0 else e.slots)
      && AllCost(s'.leases) == AllCost(s.leases) - (if e.released then 0 else e.cost)
      && Next(l, s', Release(k)) == s'
  {
    hide Run, SlotsHeld, CostHeld;
    var s := Run(l, Start, steps);
    if !s.leases[k].released {
      HeldReleased(s.leases, k, Batch);
      HeldReleased(s.leases, k, Live);
    }
  }

  /** A caller whose context is cancelled while it waits does not wait on: once its watcher has broadcast and
      it is scheduled it has returned, and the queue is one shorter. */
  lemma CancelledLeaves(l: Limits, steps: seq<Step>, k: nat)
    requires var s := Run(l, Start, steps); k < |s.callers| && s.callers[k].Waiting? && !s.callers[k].cancelled
    ensures var s := Run(l, Start, steps);
      var s' := Next(l, Next(l, Next(l, s, Cancel(k)), Broadcast(k)), Wake(k));
      && |s'.callers| == |s.callers| && s'.callers[k].Returned?
      && (s'.callers[k].admitted <==> FitsBatchShare(l, s.leases, s.callers[k].slots, s.callers[k].cost))
      && s'.counters.queuedBatch == s.counters.queuedBatch - 1
  {
    hide Run, SlotsHeld, CostHeld, InsideAcquire;
    Conservation(l, steps);
  }

  /** Live headroom: in every reachable state a live request that fits the reserve, together with the
      live work already running, is admitted, whatever batch work has been admitted before. */
  lemma LiveHeadroom(l: Limits, steps: seq<Step>, r: Request)
    requires Sound(l) && r.workload.Live?
    requires var c := Run(l, Start, steps).counters;
      c.activeLive + r.Slots() <= l.liveReserved && c.activeLiveCost + r.Cost() <= l.liveCostReserved
    ensures var s := Run(l, Start, steps);
      Next(l, s, AcquireLive(r)).leases == s.leases + [Lease(Live, r.Slots(), r.Cost(), false)]
  {
    hide Run;
    Capacity(l, steps);
  }

  // ---- No lost wake-up ----

  /** Nobody sleeps who could run: a sleeper that was not signalled is not admissible, and a sleeper
      whose context is cancelled has been signalled or will be by its watcher. */
  ghost predicate NoLostWakeup(l: Limits, s: System) {
    forall k | 0 <= k < |s.callers| && s.callers[k].Waiting? ::
      && (s.callers[k].signalled || !CanBatch(l, s.counters, s.callers[k].slots, s.callers[k].cost))
      && (s.callers[k].cancelled ==> s.callers[k].signalled || s.callers[k].watching)
  }

  lemma PassKeepsWakeups(l: Limits, s: System, k: nat)
    requires k < |s.callers| && s.callers[k].Waiting? && Positive(s) && NoLostWakeup(l, s)
    ensures NoLostWakeup(l, Pass(l, s, k))
  {
  }

  lemma NextKeepsWakeups(l: Limits, s: System, step: Step)
    requires Positive(s) && NoLostWakeup(l, s)
    ensures NoLostWakeup(l, Next(l, s, step))
  {
    hide Pass;
    match step
    case AcquireBatch(r, cancelled) =>
      if !TooLarge(l, r) { PassKeepsWakeups(l, Enter(s, r, cancelled), |s.callers|); }
    case Wake(k) =>
      if k < |s.callers| && s.callers[k].Waiting? && s.callers[k].signalled { PassKeepsWakeups(l, s, k); }
    case _ =>
  }

  /** No lost wake-up, in every reachable state. */
  lemma {:induction false} NoLostWakeups(l: Limits, steps: seq<Step>)
    ensures NoLostWakeup(l, Run(l, Start, steps))
  {
    hide Next, NoLostWakeup;
    if steps == [] {
      StartKeepsWakeups(l);
    } else {
      var init := steps[..|steps| - 1];
      NoLostWakeups(l, init);
      Conservation(l, init);
      NextKeepsWakeups(l, Run(l, Start, init), steps[|steps| - 1]);
    }
  }

  lemma StartKeepsWakeups(l: Limits)
    ensures NoLostWakeup(l, Start)
  {
  }

  // ---- No starvation ----

  /** After these steps a batch request of this size would be admitted. */
  ghost predicate AdmissibleAfter(l: Limits, steps: seq<Step>, slots: int, cost: int) {
    CanBatch(l, Run(l, Start, steps).counters, slots, cost)
  }

  /** A request can be admitted in some reachable state exactly when it fits the batch share. The entry
      check compares with the totals instead, so a request between the two would wait for ever. */
  lemma AdmissibleSomewhere(l: Limits, slots: int, cost: int)
    requires Sound(l)
    ensures (exists steps :: AdmissibleAfter(l, steps, slots, cost)) <==>
            slots <= l.total - l.liveReserved && cost <= l.totalCost - l.liveCostReserved
  {
    if CanBatch(l, Idle, slots, cost) {
      assert AdmissibleAfter(l, [], slots, cost);
    }
    forall steps | AdmissibleAfter(l, steps, slots, cost) ensures CanBatch(l, Idle, slots, cost) {
      Capacity(l, steps);
    }
  }

  /** Caller `k` has asked for more than the batch share, and is waiting or was turned away. */
  ghost predicate Oversized(l: Limits, s: System, k: nat) {
    k < |s.callers| && s.callers[k] != Returned(true)
    && (s.callers[k].Waiting? ==> !CanBatch(l, Idle, s.callers[k].slots, s.callers[k].cost))
  }

  lemma NextOversized(l: Limits, s: System, step: Step, k: nat)
    requires WithinLimits(l, s.counters) && Oversized(l, s, k)
    ensures Oversized(l, Next(l, s, step), k)
  {
  }

  /** A caller that waits for more than the batch share is never admitted, whatever happens after: all that
      can end its wait is its own cancellation. */
  lemma {:induction false} WaitsForEver(l: Limits, steps: seq<Step>, more: seq<Step>, k: nat)
    requires Sound(l)
    requires var s := Run(l, Start, steps);
      k < |s.callers| && s.callers[k].Waiting? && !CanBatch(l, Idle, s.callers[k].slots, s.callers[k].cost)
    ensures Oversized(l, Run(l, Start, steps + more), k)
  {
    hide Next;
    if more == [] {
      assert steps + more == steps;
    } else {
      var init := more[..|more| - 1];
      WaitsForEver(l, steps, init, k);
      Capacity(l, steps + init);
      assert (steps + more)[..|steps + more| - 1] == steps + init;
      NextOversized(l, Run(l, Start, steps + init), more[|more| - 1], k);
    }
  }

  /** Such requests pass the entry check: with two slots, one of them reserved for live, a batch request
      for both is let in and is never admitted. */
  lemma LetInAndStuck(more: seq<Step>)
    ensures var l, r := Normalize(Config(2, 1, 0, 0)).value, Request(Batch, 2, 0);
      && !TooLarge(l, r)
      && Oversized(l, Run(l, Start, [AcquireBatch(r, false)] + more), 0)
  {
    var l, r := Normalize(Config(2, 1, 0, 0)).value, Request(Batch, 2, 0);
    var steps := [AcquireBatch(r, false)];
    assert steps[..0] == [] && Run(l, Start, steps) == Next(l, Start, steps[0]);
    WaitsForEver(l, steps, more, 0);
  }

  /** The steps that release leases `0..n-1`. */
  function ReleaseFirst(n: nat): seq<Step> {
    if n == 0 then [] else ReleaseFirst(n - 1) + [Release(n - 1)]
  }

  lemma {:induction false} RunConcat(l: Limits, s: System, a: seq<Step>, b: seq<Step>)
    ensures Run(l, s, a + b) == Run(l, Run(l, s, a), b)
  {
    if b == [] {
      assert a + b == a;
    } else {
      var b' := b[..|b| - 1];
      RunConcat(l, s, a, b');
      assert (a + b)[..|a + b| - 1] == a + b';
    }
  }

  /** Releasing leases removes no caller and changes no caller's request. */
  lemma {:induction false} AfterReleases(l: Limits, s: System, n: nat, k: nat)
    requires n <= |s.leases| && k < |s.callers| && s.callers[k].Waiting?
    ensures var s' := Run(l, s, ReleaseFirst(n));
      && |s'.leases| == |s.leases| && |s'.callers| == |s.callers|
      && (forall j | 0 <= j < n :: s'.leases[j].released)
      && s'.callers[k].Waiting? && s'.callers[k].slots == s.callers[k].slots && s'.callers[k].cost == s.callers[k].cost
  {
    hide Next;
    if n > 0 {
      AfterReleases(l, s, n - 1, k);
      var steps := ReleaseFirst(n);
      assert steps[..|steps| - 1] == ReleaseFirst(n - 1);
      AfterRelease(l, Run(l, s, ReleaseFirst(n - 1)), n - 1, k);
    }
  }

  lemma AfterRelease(l: Limits, s: System, i: nat, k: nat)
    requires i < |s.leases| && k < |s.callers| && s.callers[k].Waiting?
    ensures var s' := Next(l, s, Release(i));
      && |s'.leases| == |s.leases| && |s'.callers| == |s.callers|
      && s'.leases[i].released
      && (forall j | 0 <= j < |s.leases| && j != i :: s'.leases[j] == s.leases[j])
      && s'.callers[k].Waiting? && s'.callers[k].slots == s.callers[k].slots && s'.callers[k].cost == s.callers[k].cost
  {
    hide SignalAll;
  }

  lemma {:induction false} AllReleased(leases: seq<Lease>, w: Workload)
    requires forall j | 0 <= j < |leases| :: leases[j].released
    ensures SlotsHeld(leases, w) == 0 && CostHeld(leases, w) == 0
  {
    if leases != [] { AllReleased(leases[..|leases| - 1], w); }
  }

  /** No batch caller is stuck: from every reachable state, a waiting caller whose request fits the batch
      share is admitted once the leases now held are released and the caller is scheduled. */
  lemma {:induction false} NoStuckCaller(l: Limits, steps: seq<Step>, k: nat)
    requires Sound(l)
    requires var s := Run(l, Start, steps);
      k < |s.callers| && s.callers[k].Waiting? && CanBatch(l, Idle, s.callers[k].slots, s.callers[k].cost)
    ensures var s := Run(l, Start, steps);
      var s' := Run(l, Start, steps + ReleaseFirst(|s.leases|) + [Wake(k)]);
      && |s'.callers| == |s.callers| && s'.callers[k] == Returned(true)
      && |s'.leases| > 0 && s'.leases[|s'.leases| - 1] == Lease(Batch, s.callers[k].slots, s.callers[k].cost, false)
  {
    hide Next;
    var s := Run(l, Start, steps);
    var freeing := steps + ReleaseFirst(|s.leases|);
    var s1 := Run(l, Start, freeing);
    RunConcat(l, Start, steps, ReleaseFirst(|s.leases|));
    AfterReleases(l, s, |s.leases|, k);
    AllReleased(s1.leases, Batch);
    AllReleased(s1.leases, Live);
    Conservation(l, freeing);
    NoLostWakeups(l, freeing);
    assert (freeing + [Wake(k)])[..|freeing|] == freeing;
    WakeAdmits(l, s1, k);
  }

  lemma WakeAdmits(l: Limits, s: System, k: nat)
    requires k < |s.callers| && s.callers[k].Waiting? && NoLostWakeup(l, s)
    requires CanBatch(l, s.counters, s.callers[k].slots, s.callers[k].cost)
    ensures var s', c := Next(l, s, Wake(k)), s.callers[k];
      && |s'.callers| == |s.callers| && s'.callers[k] == Returned(true)
      && s'.leases == s.leases + [Lease(Batch, c.slots, c.cost, false)]
  {
  }
}
