/** The queue and worker pool of the batch runners, the same in both: workers pop ids off a shared queue
    and hold an id while they run it; a popped id that is already being run is dropped. */
module WorkerPool {

  type Id = string

  const NONE: Id := ""

  // ---- pop and finish ----

  class Pool {
    var queue: seq<Id>
    var active: set<Id>

    constructor ()
      ensures queue == [] && active == {}
    {
      queue, active := [], {};
    }

    /** `Submit`: a job with an id and a preset of the catalogue is saved and queued. */
    method Submit(id: Id, known: bool, saveOk: bool) returns (ok: bool)
      modifies this`queue
      ensures ok <==> id != NONE && known && saveOk
      ensures queue == if ok then old(queue) + [id] else old(queue)
      ensures NONE !in old(queue) ==> NONE !in queue
    {
      if id == NONE || !known || !saveOk {
        return false;
      }
      queue := queue + [id];
      ok := true;
    }

    /** The next id that is not being run, which becomes active; the empty id if there is none. */
    method Pop() returns (id: Id)
      modifies this
      ensures (queue, active, id) == PopSpec(old(queue), old(active))
    {
      ghost var q0 := queue;
      while |queue| > 0
        invariant active == old(active)
        invariant PopSpec(queue, active) == PopSpec(q0, old(active))
        decreases |queue|
      {
        id := queue[0];
        queue := queue[1..];
        if id in active {
          continue;
        }
        active := active + {id};
        return id;
      }
      id := NONE;
    }

    method Finish(id: Id)
      modifies this`active
      ensures active == old(active) - {id}
    {
      active := active - {id};
    }
  }

  function PopSpec(queue: seq<Id>, active: set<Id>): (r: (seq<Id>, set<Id>, Id)) {
    if queue == [] then (queue, active, NONE)
    else if queue[0] in active then PopSpec(queue[1..], active)
    else (queue[1..], active + {queue[0]}, queue[0])
  }

  /** `pop` drops only ids that are active at that moment, takes the first that is not, and leaves the
      rest of the queue in order. */
  lemma {:induction false} PopDropsOnlyActive(queue: seq<Id>, active: set<Id>)
    requires NONE !in queue
    ensures var (queue', active', id) := PopSpec(queue, active);
      if id == NONE then queue' == [] && active' == active && forall x | x in queue :: x in active
      else
        && id in queue && id !in active && active' == active + {id}
        && exists n: nat :: n < |queue| && queue[n] == id && queue' == queue[n + 1..] && forall k | 0 <= k < n :: queue[k] in active
  {
    if queue != [] {
      if queue[0] in active {
        PopDropsOnlyActive(queue[1..], active);
        var (queue', active', id) := PopSpec(queue[1..], active);
        if id != NONE {
          var n: nat :| n < |queue[1..]| && queue[1..][n] == id && queue' == queue[1..][n + 1..]
                        && forall k | 0 <= k < n :: queue[1..][k] in active;
          assert queue[n + 1] == id && queue' == queue[n + 2..];
          assert forall k | 0 <= k < n + 1 :: queue[k] in active;
        }
      } else {
        assert queue[0] == PopSpec(queue, active).2 && queue[1..] == PopSpec(queue, active).0;
      }
    }
  }

  // ---- Any number of workers ----

  /** `held[w]` is the id worker `w` runs, or none. */
  datatype State = State(queue: seq<Id>, active: set<Id>, held: seq<Id>)

  datatype Step = Submit(id: Id) | Resume(ids: seq<Id>) | Pop(w: nat) | Finish(w: nat)

  /** Ids come from the job store, which has no record under the empty id. */
  function Next(s: State, step: Step): State {
    match step
    case Submit(id) => if id == NONE then s else s.(queue := s.queue + [id])
    case Resume(ids) => if NONE in ids then s else s.(queue := s.queue + ids)
    case Pop(w) =>
      if w < |s.held| && s.held[w] == NONE then
        var (queue', active', id) := PopSpec(s.queue, s.active);
        State(queue', active', s.held[w := id])
      else s
    case Finish(w) =>
      if w < |s.held| && s.held[w] != NONE then s.(active := s.active - {s.held[w]}, held := s.held[w := NONE])
      else s
  }

  function Run(s: State, steps: seq<Step>): State {
    if steps == [] then s else Next(Run(s, steps[..|steps| - 1]), steps[|steps| - 1])
  }

  function Start(width: nat): State {
    State([], {}, seq(width, _ => NONE))
  }

  /** The active set is what the busy workers hold, and no two of them hold the same id. */
  ghost predicate Exclusive(s: State) {
    && NONE !in s.queue
    && (forall id :: id in s.active <==> id != NONE && id in s.held)
    && (forall v, w | 0 <= v < w < |s.held| && s.held[v] == s.held[w] :: s.held[v] == NONE)
  }

  lemma NextExclusive(s: State, step: Step)
    requires Exclusive(s)
    ensures Exclusive(Next(s, step)) && |Next(s, step).held| == |s.held|
  {
    match step
    case Pop(w) =>
      if w < |s.held| && s.held[w] == NONE { PopExclusive(s, w); }
    case Finish(w) =>
      if w < |s.held| && s.held[w] != NONE { FinishExclusive(s, w); }
    case _ =>
  }

  lemma PopExclusive(s: State, w: nat)
    requires Exclusive(s) && w < |s.held| && s.held[w] == NONE
    ensures Exclusive(Next(s, Pop(w)))
  {
    PopDropsOnlyActive(s.queue, s.active);
    hide PopSpec;
    var s' := Next(s, Pop(w));
    var id := PopSpec(s.queue, s.active).2;
    forall x ensures x in s'.active <==> x != NONE && x in s'.held {
      if x in s.held {
        var v :| 0 <= v < |s.held| && s.held[v] == x;
        assert x != NONE ==> s'.held[v] == x;
      }
      if x == id && id != NONE { assert s'.held[w] == x; }
    }
  }

  lemma FinishExclusive(s: State, w: nat)
    requires Exclusive(s) && w < |s.held| && s.held[w] != NONE
    ensures Exclusive(Next(s, Finish(w)))
  {
    var s' := Next(s, Finish(w));
    forall x ensures x in s'.active <==> x != NONE && x in s'.held {
      if x in s.held && x != s.held[w] {
        var v :| 0 <= v < |s.held| && s.held[v] == x;
        assert s'.held[v] == x;
      }
    }
  }

  /** A set whose members all occur in a sequence is no larger than the sequence is long. */
  lemma {:induction false} AtMostLength(active: set<Id>, held: seq<Id>)
    requires forall id | id in active :: id in held
    ensures |active| <= |held|
  {
    if held == [] {
      assert active == {};
    } else {
      var last := held[|held| - 1];
      AtMostLength(active - {last}, held[..|held| - 1]);
    }
  }

  /** Worker-pool exclusion: whatever the workers, submissions and resumptions do and in whatever order,
      the active set is exactly the ids held by busy workers, no id is held twice, and the set is never
      larger than the pool is wide. */
  lemma {:induction false} PoolExclusion(width: nat, steps: seq<Step>)
    ensures var s := Run(Start(width), steps);
      Exclusive(s) && |s.held| == width && |s.active| <= width
  {
    hide Next;
    if steps != [] {
      PoolExclusion(width, steps[..|steps| - 1]);
      NextExclusive(Run(Start(width), steps[..|steps| - 1]), steps[|steps| - 1]);
    }
    var s := Run(Start(width), steps);
    AtMostLength(s.active, s.held);
  }

  // ---- No job is forgotten ----

  /** After `j` steps a worker holds the id. */
  ghost predicate HeldAfter(width: nat, steps: seq<Step>, j: nat, id: Id) {
    j <= |steps| && id in Run(Start(width), steps[..j]).held
  }

  lemma PopKeepsOrHolds(s: State, w: nat, id: Id)
    requires Exclusive(s) && id in s.queue
    ensures var s' := Next(s, Pop(w)); id in s'.queue || id in s'.held || id in s.held
  {
    if w < |s.held| && s.held[w] == NONE {
      PopDropsOnlyActive(s.queue, s.active);
      hide PopSpec;
      var popped := PopSpec(s.queue, s.active).2;
      assert popped in Next(s, Pop(w)).held by { assert Next(s, Pop(w)).held[w] == popped; }
      if popped != NONE {
        var n: nat :| n < |s.queue| && s.queue[n] == popped && PopSpec(s.queue, s.active).0 == s.queue[n + 1..]
                      && forall k | 0 <= k < n :: s.queue[k] in s.active;
        var i :| 0 <= i < |s.queue| && s.queue[i] == id;
        if i > n { assert s.queue[n + 1..][i - n - 1] == id; }
      }
    }
  }

  /** Every id that is submitted, or queued again at a restart, is still in the queue, or a worker has held it
      at some moment since. */
  lemma {:induction false} NoJobForgotten(width: nat, steps: seq<Step>, i: nat, id: Id)
    requires i < |steps| && id != NONE
    requires steps[i] == Submit(id) || (steps[i].Resume? && id in steps[i].ids && NONE !in steps[i].ids)
    ensures id in Run(Start(width), steps).queue || exists j: nat :: i < j && HeldAfter(width, steps, j, id)
  {
    hide Next;
    var init, step := steps[..|steps| - 1], steps[|steps| - 1];
    var s := Run(Start(width), init);
    assert steps[..|steps|] == steps && steps[..|init|] == init;
    if i == |init| {
      QueuedAtOnce(s, step, id);
    } else {
      NoJobForgotten(width, init, i, id);
      if j: nat :| i < j && HeldAfter(width, init, j, id) {
        assert init[..j] == steps[..j];
        assert HeldAfter(width, steps, j, id);
      } else {
        PoolExclusion(width, init);
        StaysQueued(s, step, id);
        if id in s.held { assert HeldAfter(width, steps, |init|, id); }
        if id in Run(Start(width), steps).held { assert HeldAfter(width, steps, |steps|, id); }
      }
    }
  }

  lemma QueuedAtOnce(s: State, step: Step, id: Id)
    requires id != NONE && (step == Submit(id) || (step.Resume? && id in step.ids && NONE !in step.ids))
    ensures id in Next(s, step).queue
  {
  }

  lemma StaysQueued(s: State, step: Step, id: Id)
    requires Exclusive(s) && id in s.queue
    ensures id in Next(s, step).queue || id in Next(s, step).held || id in s.held
  {
    if step.Pop? { PopKeepsOrHolds(s, step.w, id); }
  }

  /** An idle worker that looks in the queue finds the first job nobody runs, and a worker that finishes is
      idle. */
  lemma WorkIsFound(width: nat, steps: seq<Step>, w: nat, id: Id)
    requires var s := Run(Start(width), steps); w < |s.held| && s.held[w] == NONE && id in s.queue && id !in s.held
    ensures var s := Run(Start(width), steps);
      var s' := Next(s, Pop(w));
      && |s'.held| == |s.held| && s'.held[w] in s.queue && s'.held[w] !in s.held
      && Next(s', Finish(w)).held == s.held && Next(s', Finish(w)).active == s.active
  {
    var s := Run(Start(width), steps);
    PoolExclusion(width, steps);
    PopDropsOnlyActive(s.queue, s.active);
    hide Run, PopSpec;
    assert NONE in s.held && NONE !in s.queue;
    var popped := PopSpec(s.queue, s.active).2;
    assert id !in s.active;
    assert s.held[w := popped][w := NONE] == s.held;
  }
}
