/** Values shared by the two kinds of live session: end reasons, stream phases, the
    durable stream record, and the conversion from encoded time to work units.

    Encoded media time is counted in tenths of a second, as both encoders count it.
    Wall-clock instants and durations are integers (nanoseconds); Go's zero time is `None`. */
module LiveTypes {

  datatype Option<+T> = None | Some(value: T)

  /** `Unset` is the empty string of the source. */
  datatype Reason = Unset | Graceful | AdminStop | InsufficientBalance | PaymentFailed | WorkerFailed

  datatype Phase = Starting | Streaming | LowBalance | PaymentLost | Closing | Closed | EncoderFailed | BalanceExhausted
  {
    predicate IsTerminal() {
      Closed? || EncoderFailed? || BalanceExhausted?
    }
  }

  /** The billing part of `types.Stream`. */
  datatype Record = Record(
    phase: Phase,
    debitSeq: nat,
    unitsDebited: nat,
    lowBalance: bool,
    graceUntil: Option<int>,
    closedAt: Option<int>,
    closeReason: Reason,
    errorCode: Reason)

  /** The record `Accept` writes when a broadcaster connects. */
  const AcceptedRecord := Record(Streaming, 0, 0, false, None, None, Unset, Unset)

  function Max(a: int, b: int): int {
    if a < b then b else a
  }

  /** Whole units that pay for `tenths` of a second: the least `u` with `10 * u >= tenths`. */
  function CeilUnits(tenths: nat): (u: nat)
    ensures 10 * u - 9 <= tenths <= 10 * u
  {
    (tenths + 9) / 10
  }

  /** Whether `now` is after an optional deadline; Go's zero time lies before every instant. */
  predicate Past(deadline: Option<int>, now: int) {
    deadline.None? || now > deadline.value
  }

  /** `IncrementDebitSeq`: a missing record stays missing and a failed write changes nothing. */
  function Bump(stored: Option<Record>, ok: bool): Option<Record> {
    if ok && stored.Some? then Some(stored.value.(debitSeq := stored.value.debitSeq + 1)) else stored
  }

  /** The terminal phase that matches the reason a session closed for. */
  function TerminalPhase(reason: Reason): (p: Phase)
    ensures p.IsTerminal()
  {
    match reason
    case InsufficientBalance => BalanceExhausted
    case WorkerFailed => EncoderFailed
    case _ => Closed
  }

  /** The write that ends every session: phase, counters and flags in one save. */
  function Terminate(stored: Option<Record>, ok: bool, reason: Reason, seq_: nat, encoded: nat, at: int): Option<Record> {
    if ok && stored.Some? then
      Some(stored.value.(phase := TerminalPhase(reason), closedAt := Some(at), unitsDebited := encoded / 10,
                         closeReason := reason, debitSeq := seq_, lowBalance := false, graceUntil := None))
    else stored
  }
}
