/** GPU admission: two resources (slots and cost), two classes (batch waits, live fails at once), a
    share of both resources reserved for live, leases that may be released any number of times. */
module Scheduler {
  import opened LiveTypes

  datatype Workload = Batch | Live

  datatype Config = Config(totalSlots: int, liveReservedSlots: int, totalCost: int, liveReservedCost: int)

  datatype Limits = Limits(total: int, liveReserved: int, totalCost: int, liveCostReserved: int)

  /** `New`: fill in defaults and cap the live reserve. `None` is the scheduler that admits everything. */
  function Normalize(c: Config): (r: Option<Limits>)
    ensures r.Some? <==> c.totalSlots > 0
    ensures r.Some? ==> Sound(r.value) && r.value.total == c.totalSlots
    ensures r.Some? && c.totalCost > 0 ==> r.value.totalCost == c.totalCost
  {
    if c.totalSlots <= 0 then None
    else
      var totalCost := if c.totalCost <= 0 then c.totalSlots * 100 else c.totalCost;
      var liveSlots := if c.liveReservedSlots < 0 then 0 else c.liveReservedSlots;
      var liveCost := if c.liveReservedCost < 0 then 0 else c.liveReservedCost;
      var liveSlots' := if liveSlots >= c.totalSlots then c.totalSlots - 1 else liveSlots;
      var maxLiveCost := if totalCost - 100 < 0 then 0 else totalCost - 100;
      var liveCost' := if liveCost == 0 then liveSlots' * 100 else liveCost;
      Some(Limits(c.totalSlots, liveSlots', totalCost, if liveCost' > maxLiveCost then maxLiveCost else liveCost'))
  }

  /** What normalisation guarantees: a slot is always left for batch, and a full slot's worth of cost
      whenever there is that much in all. */
  ghost predicate Sound(l: Limits) {
    && 0 <= l.liveReserved < l.total
    && 0 <= l.liveCostReserved <= Max(0, l.totalCost - 100)
    && l.totalCost > 0
  }

  /** A reserve of slots is as configured, or nothing for a negative one, or all but one slot for one that
      would leave none; without a total cost a slot is worth 100. */
  lemma NormalizeSlots(c: Config)
    requires c.totalSlots > 0
    ensures var l := Normalize(c).value;
      && (0 <= c.liveReservedSlots < c.totalSlots ==> l.liveReserved == c.liveReservedSlots)
      && (c.liveReservedSlots < 0 ==> l.liveReserved == 0)
      && (c.liveReservedSlots >= c.totalSlots ==> l.liveReserved == c.totalSlots - 1)
      && (c.totalCost <= 0 ==> l.totalCost == 100 * c.totalSlots)
  {
  }

  /** A reserve of cost is as configured, or the slots' worth if none is, as far as the total leaves a slot's
      worth for batch. */
  lemma NormalizeCost(c: Config)
    requires c.totalSlots > 0
    ensures var l := Normalize(c).value;
      var wanted := if c.liveReservedCost > 0 then c.liveReservedCost else 100 * l.liveReserved;
      && (wanted + 100 <= l.totalCost ==> l.liveCostReserved == wanted)
      && (wanted + 100 > l.totalCost >= 100 ==> l.liveCostReserved == l.totalCost - 100)
      && (l.totalCost < 100 ==> l.liveCostReserved == 0)
  {
  }

  /** Limits that are already sound are kept: normalising twice is normalising once. */
  lemma NormalizeIdempotent(c: Config)
    requires c.totalSlots > 0
    ensures var l := Normalize(c).value;
      Normalize(Config(l.total, l.liveReserved, l.totalCost, l.liveCostReserved)) == Some(l)
  {
  }

  /** The seven counters. */
  datatype Counters = Counters(
    active: int, activeBatch: int, activeLive: int,
    activeCost: int, activeBatchCost: int, activeLiveCost: int,
    queuedBatch: int)

  const Idle := Counters(0, 0, 0, 0, 0, 0, 0)

  predicate CanLive(l: Limits, c: Counters, slots: int, cost: int) {
    c.active + slots <= l.total && c.activeCost + cost <= l.totalCost
  }

  predicate CanBatch(l: Limits, c: Counters, slots: int, cost: int) {
    c.active + slots <= l.total - l.liveReserved && c.activeCost + cost <= l.totalCost - l.liveCostReserved
  }

  function Take(c: Counters, w: Workload, slots: int, cost: int): Counters {
    var c' := c.(active := c.active + slots, activeCost := c.activeCost + cost);
    if w.Live? then c'.(activeLive := c.activeLive + slots, activeLiveCost := c.activeLiveCost + cost)
    else c'.(activeBatch := c.activeBatch + slots, activeBatchCost := c.activeBatchCost + cost)
  }

  function Queue(c: Counters, n: int): Counters {
    c.(queuedBatch := c.queuedBatch + n)
  }

  datatype Request = Request(workload: Workload, slots: int, cost: int)
  {
    function Slots(): (n: int)
      ensures n > 0 && (slots > 0 ==> n == slots) && (slots <= 0 ==> n == 1)
    {
      if slots <= 0 then 1 else slots
    }

    function Cost(): (n: int)
      ensures n > 0 && (cost > 0 ==> n == cost) && (cost <= 0 ==> n == 100 * Slots())
    {
      if cost <= 0 then Slots() * 100 else cost
    }
  }

  /** Requests larger than everything there is are refused before the lock is taken. */
  predicate TooLarge(l: Limits, r: Request) {
    r.Slots() > l.total || r.Cost() > l.totalCost
  }

  /** What one pass through the batch loop decides. Capacity is looked at before cancellation. */
  datatype Verdict = Admitted | Refused | Parked

  function Decide(l: Limits, c: Counters, slots: int, cost: int, cancelled: bool): Verdict {
    if CanBatch(l, c, slots, cost) then Admitted else if cancelled then Refused else Parked
  }

  // ---- The controller as the worker runs it: one object, one lock, these critical sections ----

  class SlotController {
    const limits: Limits
    var active: int
    var activeBatch: int
    var activeLive: int
    var activeCost: int
    var activeBatchCost: int
    var activeLiveCost: int
    var queuedBatch: int

    function Snapshot(): Counters
      reads this
    {
      Counters(active, activeBatch, activeLive, activeCost, activeBatchCost, activeLiveCost, queuedBatch)
    }

    constructor (limits: Limits)
      ensures this.limits == limits && Snapshot() == Idle
    {
      this.limits := limits;
      active, activeBatch, activeLive := 0, 0, 0;
      activeCost, activeBatchCost, activeLiveCost := 0, 0, 0;
      queuedBatch := 0;
    }

    method Occupy(w: Workload, slots: int, cost: int)
      modifies this
      ensures Snapshot() == Take(old(Snapshot()), w, slots, cost)
    {
      active := active + slots;
      activeCost := activeCost + cost;
      if w.Live? {
        activeLive := activeLive + slots;
        activeLiveCost := activeLiveCost + cost;
      } else {
        activeBatch := activeBatch + slots;
        activeBatchCost := activeBatchCost + cost;
      }
    }

    /** `Acquire` for live work: admitted now or refused now. */
    method AcquireLive(r: Request) returns (lease: SlotLease?)
      requires r.workload.Live?
      modifies this
      ensures lease != null <==>
        && r.Slots() <= limits.total && r.Cost() <= limits.totalCost
        && old(active) + r.Slots() <= limits.total && old(activeCost) + r.Cost() <= limits.totalCost
      ensures lease == null ==> Snapshot() == old(Snapshot())
      ensures lease != null ==>
        && fresh(lease) && lease.controller == this && lease.workload == Live && !lease.released
        && lease.slots == r.Slots() && lease.cost == r.Cost()
        && Snapshot() == Take(old(Snapshot()), Live, r.Slots(), r.Cost())
    {
      lease := null;
      if TooLarge(limits, r) || !CanLive(limits, Snapshot(), r.Slots(), r.Cost()) {
        return;
      }
      Occupy(Live, r.Slots(), r.Cost());
      lease := new SlotLease(this, Live, r.Slots(), r.Cost());
    }

    /** One pass through the batch loop, entered or woken: admit, give up, or go back to waiting. */
    method BatchPass(slots: int, cost: int, cancelled: bool) returns (v: Verdict)
      modifies this
      ensures v == Decide(limits, old(Snapshot()), slots, cost, cancelled)
      ensures v.Admitted? <==>
        && old(active) + slots <= limits.total - limits.liveReserved
        && old(activeCost) + cost <= limits.totalCost - limits.liveCostReserved
      ensures v.Refused? <==> !v.Admitted? && cancelled
      ensures Snapshot() ==
        match v
        case Admitted => Queue(Take(old(Snapshot()), Batch, slots, cost), -1)
        case Refused => Queue(old(Snapshot()), -1)
        case Parked => old(Snapshot())
    {
      v := Parked;
      if CanBatch(limits, Snapshot(), slots, cost) {
        Occupy(Batch, slots, cost);
        queuedBatch := queuedBatch - 1;
        v := Admitted;
      } else if cancelled {
        queuedBatch := queuedBatch - 1;
        v := Refused;
      }
    }
  }

  class SlotLease {
    const controller: SlotController
    const workload: Workload
    const slots: int
    const cost: int
    var released: bool

    constructor (c: SlotController, w: Workload, slots: int, cost: int)
      ensures controller == c && workload == w && this.slots == slots && this.cost == cost && !released
    {
      controller, workload := c, w;
      this.slots, this.cost := slots, cost;
      released := false;
    }

    /** The first call gives back what the lease took; later calls do nothing. */
    method Release()
      modifies this`released, controller
      ensures released
      ensures controller.Snapshot() ==
        if old(released) then old(controller.Snapshot()) else Take(old(controller.Snapshot()), workload, -slots, -cost)
    {
      if !released {
        released := true;
        controller.active := controller.active - slots;
        controller.activeCost := controller.activeCost - cost;
        if workload.Live? {
          controller.activeLive := controller.activeLive - slots;
          controller.activeLiveCost := controller.activeLiveCost - cost;
        } else {
          controller.activeBatch := controller.activeBatch - slots;
          controller.activeBatchCost := controller.activeBatchCost - cost;
        }
      }
    }
  }
}
