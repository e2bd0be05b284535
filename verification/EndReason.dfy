/** Why a session ends. Several goroutines may record a reason; a priority decides which one stays. */
module EndReason {
  import opened LiveTypes

  /** What reaches `setReason` from outside the session: the ingest connection closing or
      breaking (`OnEnd`), an operator stop or a shutdown, and the encoder failing. */
  datatype Cause = IngestClosed | IngestLost | OperatorStop | EncoderBroke
  {
    function Reason(): Reason {
      match this
      case IngestClosed => Graceful
      case IngestLost => WorkerFailed
      case OperatorStop => AdminStop
      case EncoderBroke => WorkerFailed
    }
  }

  function Priority(r: Reason): nat {
    match r
    case Unset => 0
    case Graceful => 1
    case AdminStop => 2
    case InsufficientBalance => 3
    case PaymentFailed => 4
    case WorkerFailed => 5
  }

  /** `setReason`: an empty reason is ignored, a lower priority never replaces a higher one. */
  function SetReason(current: Reason, r: Reason): Reason {
    if r.Unset? || Priority(r) < Priority(current) then current else r
  }

  function SetAll(start: Reason, rs: seq<Reason>): Reason {
    if rs == [] then start else SetReason(SetAll(start, rs[..|rs| - 1]), rs[|rs| - 1])
  }

  /** Whatever the order of the calls, the reason that stays is the one of highest priority
      among the initial one and all that were recorded. */
  lemma {:induction false} SetAllIsHighest(start: Reason, rs: seq<Reason>)
    ensures SetAll(start, rs) == start || SetAll(start, rs) in rs
    ensures Priority(start) <= Priority(SetAll(start, rs))
    ensures forall r | r in rs :: Priority(r) <= Priority(SetAll(start, rs))
  {
    if rs != [] {
      var init := rs[..|rs| - 1];
      SetAllIsHighest(start, init);
      assert rs == init + [rs[|rs| - 1]];
    }
  }

  /** So two goroutines may race: any two orders of the same calls agree. */
  lemma SetAllOrderFree(start: Reason, rs: seq<Reason>, rs': seq<Reason>)
    requires multiset(rs) == multiset(rs')
    ensures SetAll(start, rs) == SetAll(start, rs')
  {
    SetAllIsHighest(start, rs);
    SetAllIsHighest(start, rs');
    var a, b := SetAll(start, rs), SetAll(start, rs');
    assert forall r :: r in rs <==> r in multiset(rs);
    assert forall r :: r in rs' <==> r in multiset(rs');
    assert Priority(a) == Priority(b);
  }
}
