/** The receiver's side of a debit: an account is a sender and a work id, and a debit whose sequence
    number the account has seen before changes nothing. */
module ChargeLedger {

  datatype Account = Account(sender: string, workId: string)

  datatype Charge = Charge(account: Account, units: nat, seq_: nat)

  type Ledger = map<(Account, nat), nat>

  /** `DebitBalance` at the receiver: the first debit of a number counts, a replay does not. */
  function Receive(led: Ledger, c: Charge): Ledger {
    var key := (c.account, c.seq_);
    if key in led then led else led[key := c.units]
  }

  function ReceiveAll(led: Ledger, cs: seq<Charge>): Ledger {
    if cs == [] then led else Receive(ReceiveAll(led, cs[..|cs| - 1]), cs[|cs| - 1])
  }

  /** Units charged to an account under the numbers `1..n`. */
  function ChargedUpTo(led: Ledger, a: Account, n: nat): nat {
    if n == 0 then 0 else ChargedUpTo(led, a, n - 1) + if (a, n) in led then led[(a, n)] else 0
  }

  /** Everything charged to the account is charged under the numbers `1..n`. */
  ghost predicate NoneBeyond(led: Ledger, a: Account, n: nat) {
    forall k: nat | (a, k) in led :: 1 <= k <= n
  }

  /** Every charge to the account is for `units`, under a number in `1..n`. */
  ghost predicate Uniform(cs: seq<Charge>, a: Account, units: nat, n: nat) {
    forall j | 0 <= j < |cs| && cs[j].account == a :: cs[j].units == units && 1 <= cs[j].seq_ <= n
  }

  ghost predicate Seen(cs: seq<Charge>, a: Account, k: nat) {
    exists j :: 0 <= j < |cs| && cs[j].account == a && cs[j].seq_ == k
  }

  /** What the ledger holds for one account, however the charges of other accounts are mixed in. */
  lemma {:induction false} LedgerHolds(cs: seq<Charge>, a: Account, units: nat, n: nat)
    requires Uniform(cs, a, units, n)
    ensures var led := ReceiveAll(map[], cs);
      && (forall k: nat :: (a, k) in led <==> Seen(cs, a, k))
      && (forall k: nat | (a, k) in led :: led[(a, k)] == units)
  {
    if cs != [] {
      var init, c := cs[..|cs| - 1], cs[|cs| - 1];
      assert forall j | 0 <= j < |init| :: init[j] == cs[j];
      LedgerHolds(init, a, units, n);
      forall k: nat ensures Seen(cs, a, k) <==> Seen(init, a, k) || (c.account == a && c.seq_ == k) {
        SeenSnoc(init, c, a, k);
        assert cs == init + [c];
      }
    }
  }

  /** Charge `j` is the first of its account and number. */
  ghost predicate FirstOf(cs: seq<Charge>, j: nat) {
    j < |cs| && forall i | 0 <= i < j :: cs[i].account != cs[j].account || cs[i].seq_ != cs[j].seq_
  }

  /** The ledger holds the numbers that arrived and no others. */
  lemma {:induction false} LedgerSeen(cs: seq<Charge>, a: Account, k: nat)
    ensures (a, k) in ReceiveAll(map[], cs) <==> Seen(cs, a, k)
  {
    if cs != [] {
      var init, c := cs[..|cs| - 1], cs[|cs| - 1];
      LedgerSeen(init, a, k);
      SeenSnoc(init, c, a, k);
      assert cs == init + [c];
    }
  }

  /** The first debit of a number is the one that counts, whatever its replays say. */
  lemma {:induction false} FirstCounts(cs: seq<Charge>, j: nat)
    requires FirstOf(cs, j)
    ensures var led, key := ReceiveAll(map[], cs), (cs[j].account, cs[j].seq_);
      key in led && led[key] == cs[j].units
  {
    var init := cs[..|cs| - 1];
    if j < |init| {
      assert FirstOf(init, j) && cs[j] == init[j];
      FirstCounts(init, j);
    } else {
      LedgerSeen(init, cs[j].account, cs[j].seq_);
    }
  }

  lemma SeenSnoc(cs: seq<Charge>, c: Charge, a: Account, k: nat)
    ensures Seen(cs + [c], a, k) <==> Seen(cs, a, k) || (c.account == a && c.seq_ == k)
  {
    var cs' := cs + [c];
    assert forall j | 0 <= j < |cs| :: cs'[j] == cs[j];
    assert cs'[|cs|] == c;
  }

  lemma {:induction false} UniformSum(led: Ledger, a: Account, units: nat, n: nat)
    requires forall k: nat | (a, k) in led :: led[(a, k)] == units
    ensures ChargedUpTo(led, a, n) <= n * units
    ensures (forall k: nat | 1 <= k <= n :: (a, k) in led) ==> ChargedUpTo(led, a, n) == n * units
  {
    if n > 0 {
      UniformSum(led, a, units, n - 1);
      assert n * units == (n - 1) * units + units;
    }
  }

  /** An account whose charges are uniform pays at most `n` times the unit price, however often its
      charges are replayed, and exactly that once every number has arrived. */
  lemma ChargedOnce(cs: seq<Charge>, a: Account, units: nat, n: nat)
    requires Uniform(cs, a, units, n)
    ensures var led := ReceiveAll(map[], cs);
      && NoneBeyond(led, a, n)
      && ChargedUpTo(led, a, n) <= n * units
      && ((forall k: nat | 1 <= k <= n :: Seen(cs, a, k)) ==> ChargedUpTo(led, a, n) == n * units)
  {
    var led := ReceiveAll(map[], cs);
    LedgerHolds(cs, a, units, n);
    UniformSum(led, a, units, n);
  }
}
