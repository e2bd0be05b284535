/** The encoder clock: a shared register that progress lines raise by compare-and-swap, so that a late or
    lost line never takes it back. */
module EncoderClock {
  import opened LiveTypes
  import opened PatternB
  import opened PatternBLedger

  // ---- One raise, with other writers in between ----

  /** The largest of `start` and the values in `vs`. */
  function MaxOf(start: nat, vs: seq<nat>): nat {
    if vs == [] then start else Max(MaxOf(start, vs[..|vs| - 1]), vs[|vs| - 1])
  }

  /** The loop of `parseLiveProgress`. Between its load and its swap another writer may raise the register
      to the next of `others`; then the swap fails and the loop starts over. */
  method Raise(register: nat, v: nat, others: seq<nat>) returns (register': nat, seen: nat)
    ensures seen <= |others|
    ensures register' == Max(v, MaxOf(register, others[..seen]))
  {
    register', seen := register, 0;
    while true
      invariant seen <= |others|
      invariant register' == MaxOf(register, others[..seen])
      decreases |others| - seen
    {
      var cur := register';
      if v <= cur {
        return;
      }
      if seen < |others| {
        assert others[..seen + 1][..seen] == others[..seen];
        register' := Max(register', others[seen]);
        seen := seen + 1;
        if register' == cur {
          register' := v;
          return;
        }
      } else {
        register' := v;
        return;
      }
    }
  }

  // ---- Any number of writers ----

  /** A writer: about to load, between load and swap, or finished. */
  datatype Writer = Fresh(v: nat) | Loaded(v: nat, cur: nat) | Done(v: nat)

  datatype State = State(register: nat, writers: seq<Writer>)

  datatype Step = Arrive(v: nat) | Load(w: nat) | Swap(w: nat)

  function Next(s: State, step: Step): State {
    match step
    case Arrive(v) => s.(writers := s.writers + [Fresh(v)])
    case Load(w) =>
      if w < |s.writers| && s.writers[w].Fresh? then
        var v := s.writers[w].v;
        s.(writers := s.writers[w := if v <= s.register then Done(v) else Loaded(v, s.register)])
      else s
    case Swap(w) =>
      if w < |s.writers| && s.writers[w].Loaded? then
        var v := s.writers[w].v;
        if s.register == s.writers[w].cur then State(v, s.writers[w := Done(v)])
        else s.(writers := s.writers[w := Fresh(v)])
      else s
  }

  function Run(steps: seq<Step>): State {
    if steps == [] then State(0, []) else Next(Run(steps[..|steps| - 1]), steps[|steps| - 1])
  }

  /** Finished writers are accounted for, unfinished ones would still raise the value they loaded, and the
      register holds nothing nobody wrote. */
  ghost predicate Accounted(s: State) {
    && (forall w | 0 <= w < |s.writers| && s.writers[w].Done? :: s.writers[w].v <= s.register)
    && (forall w | 0 <= w < |s.writers| && s.writers[w].Loaded? :: s.writers[w].cur < s.writers[w].v)
    && (s.register == 0 || exists w :: 0 <= w < |s.writers| && s.writers[w].v == s.register)
  }

  lemma NextAccounted(s: State, step: Step)
    requires Accounted(s)
    ensures Accounted(Next(s, step)) && s.register <= Next(s, step).register
  {
    var s' := Next(s, step);
    assert |s'.writers| >= |s.writers| && forall w | 0 <= w < |s.writers| :: s'.writers[w].v == s.writers[w].v;
    if s'.register == s.register && s.register != 0 {
      var w :| 0 <= w < |s.writers| && s.writers[w].v == s.register;
      assert s'.writers[w].v == s'.register;
    } else if s'.register != s.register {
      assert s'.writers[step.w].v == s'.register;
    }
  }

  lemma {:induction false} RunAccounted(steps: seq<Step>)
    ensures Accounted(Run(steps))
  {
    hide Next, Accounted;
    if steps == [] {
      NobodyAccounted();
    } else {
      RunAccounted(steps[..|steps| - 1]);
      NextAccounted(Run(steps[..|steps| - 1]), steps[|steps| - 1]);
    }
  }

  lemma NobodyAccounted()
    ensures Accounted(State(0, []))
  {
  }

  /** The register never goes back. */
  lemma {:induction false} RegisterMonotone(steps: seq<Step>, i: nat, j: nat)
    requires i <= j <= |steps|
    ensures Run(steps[..i]).register <= Run(steps[..j]).register
  {
    hide Next;
    if i < j {
      RegisterMonotone(steps, i, j - 1);
      assert steps[..j][..j - 1] == steps[..j - 1];
      RunAccounted(steps[..j - 1]);
      NextAccounted(Run(steps[..j - 1]), steps[j - 1]);
    }
  }

  /** When all writers are finished the register holds the largest value written, in any interleaving. */
  lemma RegisterIsMaximum(steps: seq<Step>)
    requires forall w | 0 <= w < |Run(steps).writers| :: Run(steps).writers[w].Done?
    ensures var s := Run(steps);
      && (forall w | 0 <= w < |s.writers| :: s.writers[w].v <= s.register)
      && (s.register == 0 || exists w :: 0 <= w < |s.writers| && s.writers[w].v == s.register)
  {
    hide Run;
    RunAccounted(steps);
  }

  // ---- The clock a session reads ----

  /** Input `k` was read off the register after `at[k]` of its steps, the settlement after `end`. */
  ghost predicate ReadsRegister(steps: seq<Step>, ins: seq<Input>, at: seq<nat>, final: nat, end: nat) {
    && |at| == |ins| && end <= |steps|
    && (forall j, k | 0 <= j < k < |at| :: at[j] <= at[k])
    && (forall k | 0 <= k < |at| :: at[k] <= end)
    && (forall k | 0 <= k < |ins| && ins[k].Tick? :: ins[k].t.encoded == Run(steps[..at[k]]).register)
    && final == Run(steps[..end]).register
  }

  /** A session that reads this register sees a clock that never runs backwards. */
  lemma RegisterIsMonotoneClock(steps: seq<Step>, ins: seq<Input>, at: seq<nat>, final: nat, end: nat)
    requires ReadsRegister(steps, ins, at, final, end)
    ensures MonotoneClock(ins, final)
  {
    hide Run;
    forall j, k | 0 <= j < k < |ins| && ins[j].Tick? && ins[k].Tick? ensures ins[j].t.encoded <= ins[k].t.encoded {
      RegisterMonotone(steps, at[j], at[k]);
    }
    forall j | 0 <= j < |ins| && ins[j].Tick? ensures ins[j].t.encoded <= final {
      RegisterMonotone(steps, at[j], end);
    }
  }

  /** The billing bound for the encoder the worker runs: a finished session whose settlement went through
      or was not needed charges for every tenth up to the settlement's reading, and less than one unit more
      per debit. */
  lemma BillingWithEncoder(p: Params, stream: Record, stored: Option<Record>, ins: seq<Input>, f: FinalInput,
                           steps: seq<Step>, at: seq<nat>, end: nat)
    requires ReadsRegister(steps, ins, at, f.encoded, end)
    requires Drive(p, PatternB.Open(stream, stored), ins).closed.Some?
    requires f.debitOk || f.encoded <= Drive(p, PatternB.Open(stream, stored), ins).lastDebited
    ensures var paid := BooksOf(Finish(p, Drive(p, PatternB.Open(stream, stored), ins), f).log).paid;
      f.encoded <= 10 * Total(paid) && (paid != [] ==> 10 * Total(paid) - f.encoded < 10 * |paid|)
  {
    hide Drive, Finish, BooksOf, MonotoneClock, ReadsRegister;
    RegisterIsMonotoneClock(steps, ins, at, f.encoded, end);
    BillingBound(p, stream, stored, ins, f);
  }

  // ---- Progress ----

  /** A writer that loads and swaps undisturbed is finished, and has raised the register to its value if that
      is larger. */
  lemma UndisturbedRaise(s: State, w: nat)
    requires w < |s.writers| && s.writers[w].Fresh?
    ensures var v, s1 := s.writers[w].v, Next(s, Load(w));
      var s2 := Next(s1, Swap(w));
      && w < |s2.writers| && s2.writers[w] == Done(v)
      && s2.register == if v > s.register then v else s.register
  {
  }

  /** A swap fails only because somebody else has raised the register since the load, so that writers cannot
      all fail for ever. */
  lemma FailedSwapMeansProgress(steps: seq<Step>, more: seq<Step>, w: nat)
    requires var s := Run(steps); w < |s.writers| && s.writers[w].Loaded? && s.writers[w].cur == s.register
    requires var s := Run(steps + more); w < |s.writers| && s.writers[w] == Run(steps).writers[w]
    ensures var s := Run(steps + more);
      Next(s, Swap(w)).writers[w].Fresh? <==> s.register > Run(steps).register
  {
    assert (steps + more)[..|steps|] == steps && (steps + more)[..|steps + more|] == steps + more;
    RegisterMonotone(steps + more, |steps|, |steps + more|);
    hide Run;
  }

  /** A new writer is in the game with its value. */
  lemma ArrivalWaits(s: State, v: nat)
    ensures var s' := Next(s, Arrive(v));
      s'.register == s.register && |s'.writers| == |s.writers| + 1 && s'.writers[|s.writers|] == Fresh(v)
  {
  }
}
