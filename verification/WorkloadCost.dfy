/** The admission cost of a preset, in exact arithmetic, and what it means for admission: the requests
    the batch runners issue never get stuck. */
module WorkloadCost {
  import opened LiveTypes
  import opened Scheduler
  import opened SchedulerSteps

  const UNITS_PER_SLOT := 100
  const MIN_PRESET_COST := 20

  datatype Codec = H264 | Hevc | Av1 | OtherCodec

  datatype Preset = Preset(codec: Codec, width: int, height: int, kbps: int)

  datatype Model = Model(batchScale: real, liveScale: real)
  {
    function Normalized(): (m: Model)
      ensures m.batchScale > 0.0 && m.liveScale > 0.0
    {
      Model(if batchScale <= 0.0 then 1.0 else batchScale, if liveScale <= 0.0 then 1.25 else liveScale)
    }

    function ForPreset(p: Preset): (cost: int)
      ensures MIN_PRESET_COST <= cost <= UNITS_PER_SLOT
    {
      Estimate(p, Normalized().batchScale)
    }

    function ForLivePreset(p: Preset): (cost: int)
      ensures MIN_PRESET_COST <= cost <= UNITS_PER_SLOT
    {
      Estimate(p, Normalized().liveScale)
    }
  }

  function Ceil(x: real): int {
    -((-x).Floor)
  }

  function Clamp(v: int): (r: int)
    ensures MIN_PRESET_COST <= r <= UNITS_PER_SLOT
  {
    if v < MIN_PRESET_COST then MIN_PRESET_COST else if v > UNITS_PER_SLOT then UNITS_PER_SLOT else v
  }

  predicate Complete(p: Preset) {
    p.width > 0 && p.height > 0 && p.kbps > 0
  }

  function CodecFactor(c: Codec): real {
    match c
    case Hevc => 1.15
    case Av1 => 1.30
    case _ => 1.0
  }

  function Weight(p: Preset): real {
    (p.width * p.height) as real / 1_000_000.0 * 32.0 + p.kbps as real / 1000.0 * 6.0 + 8.0
  }

  function Raw(p: Preset, scale: real): real {
    Weight(p) * CodecFactor(p.codec) * scale
  }

  function Estimate(p: Preset, scale: real): (cost: int)
    ensures MIN_PRESET_COST <= cost <= UNITS_PER_SLOT
  {
    if !Complete(p) then UNITS_PER_SLOT
    else Clamp(Ceil(Raw(p, scale)))
  }

  lemma MulMonotone(a: real, b: real, x: real, y: real)
    requires 0.0 <= a <= b && 0.0 <= x <= y
    ensures 0.0 <= a * x <= b * y
  {
    assert a * x <= b * x;
    assert b * x <= b * y;
  }

  lemma PixelsMonotone(p: Preset, q: Preset)
    requires Complete(p) && p.width <= q.width && p.height <= q.height
    ensures p.width * p.height <= q.width * q.height
  {
    assert p.width * p.height <= q.width * p.height;
    assert q.width * p.height <= q.width * q.height;
  }

  lemma WeightMonotone(p: Preset, q: Preset)
    requires Complete(p) && p.width <= q.width && p.height <= q.height && p.kbps <= q.kbps
    ensures 0.0 <= Weight(p) <= Weight(q)
  {
    PixelsMonotone(p, q);
  }

  lemma CeilMonotone(x: real, y: real)
    requires x <= y
    ensures Clamp(Ceil(x)) <= Clamp(Ceil(y))
  {
  }

  /** A preset that is at least as large in every respect never costs less, if the smaller one has all its
      measures; one that has not is priced at a whole slot. */
  lemma EstimateMonotone(p: Preset, q: Preset, scale: real, scale': real)
    requires 0.0 <= scale <= scale'
    requires p.width <= q.width && p.height <= q.height && p.kbps <= q.kbps
    requires CodecFactor(p.codec) <= CodecFactor(q.codec)
    ensures Estimate(p, scale) <= Estimate(q, scale') <==> Complete(p) || Estimate(q, scale') == UNITS_PER_SLOT
  {
    if Complete(p) {
      RawMonotone(p, q, scale, scale');
      hide Raw, CodecFactor;
      CeilMonotone(Raw(p, scale), Raw(q, scale'));
    }
  }

  lemma RawMonotone(p: Preset, q: Preset, scale: real, scale': real)
    requires Complete(p) && 0.0 <= scale <= scale'
    requires p.width <= q.width && p.height <= q.height && p.kbps <= q.kbps
    requires CodecFactor(p.codec) <= CodecFactor(q.codec)
    ensures Raw(p, scale) <= Raw(q, scale')
  {
    WeightMonotone(p, q);
    CodecFactorPositive(p.codec);
    hide Weight, CodecFactor;
    var a, b := Weight(p) * CodecFactor(p.codec), Weight(q) * CodecFactor(q.codec);
    MulMonotone(Weight(p), Weight(q), CodecFactor(p.codec), CodecFactor(q.codec));
    MulMonotone(a, b, scale, scale');
  }

  lemma CodecFactorPositive(c: Codec)
    ensures CodecFactor(c) >= 1.0
  {
  }

  /** The request a batch runner issues for one encode. */
  function BatchRequest(m: Model, p: Preset): Request {
    Request(Batch, 1, m.ForPreset(p))
  }

  /** No starvation by configuration: whatever the configuration, a request of a batch runner is either
      refused at once, exactly when it costs more than everything there is, which needs a total below one
      slot's worth, or it fits the batch share of an idle scheduler. */
  lemma NoStarvation(c: Config, m: Model, p: Preset)
    requires c.totalSlots > 0
    ensures var l, r := Normalize(c).value, BatchRequest(m, p);
      && (TooLarge(l, r) <==> m.ForPreset(p) > l.totalCost)
      && (TooLarge(l, r) ==> l.totalCost < UNITS_PER_SLOT)
      && (!TooLarge(l, r) ==> CanBatch(l, Idle, r.Slots(), r.Cost()))
  {
  }

  /** So a runner's caller is never stuck: wherever it waits, releasing the leases now held and
      scheduling it gets it admitted. */
  lemma RunnersNeverStuck(c: Config, m: Model, p: Preset, steps: seq<Step>, k: nat)
    requires c.totalSlots > 0
    requires var l, r := Normalize(c).value, BatchRequest(m, p);
      var s := Run(l, Start, steps);
      && !TooLarge(l, r)
      && k < |s.callers| && s.callers[k].Waiting?
      && s.callers[k].slots == r.Slots() && s.callers[k].cost == r.Cost()
    ensures var l := Normalize(c).value;
      var n := |Run(l, Start, steps).leases|;
      var s' := Run(l, Start, steps + ReleaseFirst(n) + [Wake(k)]);
      k < |s'.callers| && s'.callers[k] == Returned(true)
  {
    hide Run, Normalize, Sound;
    NoStarvation(c, m, p);
    NoStuckCaller(Normalize(c).value, steps, k);
  }

  // ---- Live requests ----

  /** `liveAdmissionCost`: the cost of the configured preset; that of the dearest in the catalogue if the
      preset is not in it; a whole slot if there is nothing to go by. */
  method LiveAdmissionCost(m: Model, catalogue: Option<seq<Preset>>, chosen: Option<Preset>) returns (cost: int)
    ensures MIN_PRESET_COST <= cost <= UNITS_PER_SLOT
    ensures catalogue.Some? && chosen.Some? ==> cost == m.ForLivePreset(chosen.value)
    ensures catalogue.Some? && chosen.None? && catalogue.value != [] ==>
      && (exists i :: 0 <= i < |catalogue.value| && cost == m.ForLivePreset(catalogue.value[i]))
      && (forall i | 0 <= i < |catalogue.value| :: m.ForLivePreset(catalogue.value[i]) <= cost)
    ensures catalogue.None? || (chosen.None? && catalogue.value == []) ==> cost == UNITS_PER_SLOT
  {
    if catalogue.None? {
      return UNITS_PER_SLOT;
    }
    if chosen.Some? {
      return m.ForLivePreset(chosen.value);
    }
    var ladder, maxCost := catalogue.value, 0;
    for k := 0 to |ladder|
      invariant 0 <= maxCost <= UNITS_PER_SLOT
      invariant if k == 0 then maxCost == 0 else exists i :: 0 <= i < k && maxCost == m.ForLivePreset(ladder[i])
      invariant forall i | 0 <= i < k :: m.ForLivePreset(ladder[i]) <= maxCost
    {
      var cost := m.ForLivePreset(ladder[k]);
      if cost > maxCost {
        maxCost := cost;
      }
    }
    if maxCost > 0 {
      return maxCost;
    }
    cost := UNITS_PER_SLOT;
  }

  /** Live work that never costs more than its slots' worth. */
  ghost predicate Modest(steps: seq<Step>) {
    forall j | 0 <= j < |steps| && steps[j].AcquireLive? :: steps[j].r.Cost() <= UNITS_PER_SLOT * steps[j].r.Slots()
  }

  ghost predicate ModestLeases(leases: seq<Lease>) {
    forall k | 0 <= k < |leases| && leases[k].workload.Live? :: leases[k].cost <= UNITS_PER_SLOT * leases[k].slots
  }

  lemma NextModest(l: Limits, s: System, step: Step)
    requires ModestLeases(s.leases) && (step.AcquireLive? ==> step.r.Cost() <= UNITS_PER_SLOT * step.r.Slots())
    ensures ModestLeases(Next(l, s, step).leases)
  {
  }

  lemma {:induction false} RunModest(l: Limits, steps: seq<Step>)
    requires Modest(steps)
    ensures ModestLeases(Run(l, Start, steps).leases)
  {
    hide Next;
    if steps != [] {
      RunModest(l, steps[..|steps| - 1]);
      NextModest(l, Run(l, Start, steps[..|steps| - 1]), steps[|steps| - 1]);
    }
  }

  lemma {:induction false} ModestSum(leases: seq<Lease>)
    requires ModestLeases(leases)
    ensures CostHeld(leases, Live) <= UNITS_PER_SLOT * SlotsHeld(leases, Live)
  {
    if leases != [] {
      ModestSum(leases[..|leases| - 1]);
    }
  }

  /** The reserved cost covers the reserved slots. */
  predicate ReserveCovers(l: Limits) {
    l.liveCostReserved >= UNITS_PER_SLOT * l.liveReserved
  }

  /** It does so if and only if the configured cost is left to the default or is at least the slots' worth,
      and the total leaves that much beside one slot for batch. With both costs left to the default it does. */
  lemma ReserveCoversWhen(c: Config)
    requires c.totalSlots > 0
    ensures var l := Normalize(c).value;
      && (ReserveCovers(l) <==>
            l.liveReserved == 0
            || ((c.liveReservedCost <= 0 || c.liveReservedCost >= UNITS_PER_SLOT * l.liveReserved)
                && l.totalCost >= UNITS_PER_SLOT * (l.liveReserved + 1)))
      && (c.totalCost <= 0 && c.liveReservedCost <= 0 ==> ReserveCovers(l))
  {
  }

  /** The reserve is worth its slots: in every reachable state with a live slot of the reserve free, a live
      runner's request is admitted, whatever batch work runs and whatever the live work costs. */
  lemma ReservedSlotsUsable(c: Config, steps: seq<Step>, cost: int)
    requires c.totalSlots > 0 && ReserveCovers(Normalize(c).value) && Modest(steps)
    requires 0 < cost <= UNITS_PER_SLOT
    requires var l := Normalize(c).value; Run(l, Start, steps).counters.activeLive < l.liveReserved
    ensures var l := Normalize(c).value;
      var s := Run(l, Start, steps);
      Next(l, s, AcquireLive(Request(Live, 1, cost))).leases == s.leases + [Lease(Live, 1, cost, false)]
  {
    hide Run, Next, Normalize;
    var l := Normalize(c).value;
    RunModest(l, steps);
    ModestSum(Run(l, Start, steps).leases);
    Conservation(l, steps);
    LiveHeadroom(l, steps, Request(Live, 1, cost));
  }

  // ---- What the numbers are ----

  /** The price of a preset that has all its measures: the least whole number that covers 32 for a megapixel, 6
      for a megabit per second and 8 at all, by 1.15 for HEVC and 1.3 for AV1, by the scale; but not below
      20 nor above 100. One without a measure costs 100. */
  lemma EstimateTells(p: Preset, scale: real)
    ensures var cost := Estimate(p, scale);
      var factor := if p.codec == Hevc then 1.15 else if p.codec == Av1 then 1.3 else 1.0;
      var raw := ((p.width * p.height) as real / 1000000.0 * 32.0 + p.kbps as real / 1000.0 * 6.0 + 8.0) * factor * scale;
      && 20 <= cost <= 100
      && (p.width <= 0 || p.height <= 0 || p.kbps <= 0 ==> cost == 100)
      && (p.width > 0 && p.height > 0 && p.kbps > 0 ==>
            && (cost < 100 ==> raw <= cost as real)
            && (cost > 20 ==> raw > (cost - 1) as real))
  {
    RawTells(p, scale);
    hide Raw;
    CeilTells(Raw(p, scale));
  }

  lemma RawTells(p: Preset, scale: real)
    ensures var factor := if p.codec == Hevc then 1.15 else if p.codec == Av1 then 1.3 else 1.0;
      Raw(p, scale) == ((p.width * p.height) as real / 1000000.0 * 32.0 + p.kbps as real / 1000.0 * 6.0 + 8.0) * factor * scale
  {
  }

  lemma CeilTells(x: real)
    ensures x <= Ceil(x) as real < x + 1.0
  {
  }

  /** Batch work is priced by the batch scale and live work by the live scale; a scale that is not positive is
      replaced by 1 or by 1.25. */
  lemma ScalesTell(m: Model, p: Preset)
    ensures m.ForPreset(p) == Estimate(p, if m.batchScale > 0.0 then m.batchScale else 1.0)
    ensures m.ForLivePreset(p) == Estimate(p, if m.liveScale > 0.0 then m.liveScale else 1.25)
    ensures m.Normalized().Normalized() == m.Normalized()
  {
  }

  /** With the default scales live work costs no less than the same work in batch. */
  lemma LiveCostsMore(p: Preset)
    ensures Model(0.0, 0.0).ForPreset(p) <= Model(0.0, 0.0).ForLivePreset(p)
  {
    EstimateMonotone(p, p, 1.0, 1.25);
  }

  /** The three common sizes are told apart, and the live scale tells. */
  lemma CommonSizes()
    ensures Model(1.0, 1.25).ForPreset(Preset(H264, 854, 480, 1200)) == 29
    ensures Model(1.0, 1.25).ForPreset(Preset(H264, 1280, 720, 2500)) == 53
    ensures Model(1.0, 1.25).ForPreset(Preset(H264, 1920, 1080, 5000)) == 100
    ensures Model(1.0, 1.25).ForLivePreset(Preset(H264, 1280, 720, 2500)) == 66
  {
  }
}
