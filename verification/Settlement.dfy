// The payout split and the settlement worker: packages/settlement/src/worker.ts:39-47, 130-185.
// Amounts are arbitrary natural numbers, as BigInt is; division truncates, as it does on non-negative BigInts.

module Settlement {
  import opened Sequences
  import opened Wrappers

  const SCALE: nat := 10_000
  const FEE_BPS: nat := 1_000

  predicate ValidBps(bps: seq<int>) {
    |bps| == 5 && (forall i :: 0 <= i < 5 ==> bps[i] >= 0) && Sum(bps) == SCALE
  }

  function Fee(gross: nat): nat {
    gross * FEE_BPS / SCALE
  }

  function Net(gross: nat): nat {
    FeeBelow(gross);
    gross - Fee(gross)
  }

  lemma FeeBelow(gross: nat)
    ensures 10 * Fee(gross) <= gross < 10 * Fee(gross) + 10
  {
  }

  /** The floors of the exact shares. */
  function Floors(net: nat, bps: seq<int>): (s: seq<int>)
    ensures |s| == |bps|
  {
    seq(|bps|, i requires 0 <= i < |bps| => net * bps[i] / SCALE)
  }

  function Remainder(net: nat, bps: seq<int>): int {
    net - Sum(Floors(net, bps))
  }

  datatype View = View(fee: int, credits: seq<int>, totalLiability: int)

  /** None where the source throws on the BPS. */
  function ExpectedCredits(gross: nat, bps: seq<int>): Option<View> {
    if !ValidBps(bps) then None
    else
      var floors := Floors(Net(gross), bps);
      Some(View(Fee(gross), floors[0 := floors[0] + Remainder(Net(gross), bps)], gross))
  }

  // ---------- the split ----------

  lemma SumOfFive(s: seq<int>)
    requires |s| == 5
    ensures Sum(s) == s[0] + s[1] + s[2] + s[3] + s[4]
  {
    assert s[1..][1..][1..][1..][1..] == [];
    assert Sum(s[1..]) == s[1] + Sum(s[1..][1..]);
    assert Sum(s[1..][1..]) == s[2] + Sum(s[1..][1..][1..]);
    assert Sum(s[1..][1..][1..]) == s[3] + Sum(s[1..][1..][1..][1..]);
  }

  lemma FloorOf(x: int)
    ensures SCALE * (x / SCALE) <= x < SCALE * (x / SCALE) + SCALE
  {
  }

  lemma Distribute(n: int, a: int, b: int, c: int, d: int, e: int)
    ensures n * a + n * b + n * c + n * d + n * e == n * (a + b + c + d + e)
  {
  }

  /** Fee and credits add up to the gross pool, exactly; the remainder is at most 4 units. */
  lemma SplitConserves(gross: nat, bps: seq<int>)
    requires ValidBps(bps)
    ensures var v := ExpectedCredits(gross, bps).value;
            v.fee + Sum(v.credits) == gross == v.totalLiability
    ensures 0 <= Remainder(Net(gross), bps) <= 4
  {
    var net := Net(gross);
    var f := Floors(net, bps);
    SumOfFive(bps);
    SumOfFive(f);
    SumOfFive(ExpectedCredits(gross, bps).value.credits);
    Distribute(net, bps[0], bps[1], bps[2], bps[3], bps[4]);
    FloorOf(net * bps[0]);
    FloorOf(net * bps[1]);
    FloorOf(net * bps[2]);
    FloorOf(net * bps[3]);
    FloorOf(net * bps[4]);
  }

  /** The floors of the five shares miss less than five units of the net pool. */
  lemma FloorsMiss(net: nat, bps: seq<int>)
    requires ValidBps(bps)
    ensures var f := Floors(net, bps);
            SCALE * (net - (f[1] + f[2] + f[3] + f[4])) - 4 * SCALE < net * bps[0] <= SCALE * (net - (f[1] + f[2] + f[3]
              + f[4]))
  {
    SumOfFive(bps);
    Distribute(net, bps[0], bps[1], bps[2], bps[3], bps[4]);
    FloorOf(net * bps[1]);
    FloorOf(net * bps[2]);
    FloorOf(net * bps[3]);
    FloorOf(net * bps[4]);
  }

  lemma FirstCredit(gross: nat, bps: seq<int>)
    requires ValidBps(bps)
    ensures var f := Floors(Net(gross), bps);
            ExpectedCredits(gross, bps).value.credits[0] == Net(gross) - (f[1] + f[2] + f[3] + f[4])
  {
    SumOfFive(Floors(Net(gross), bps));
  }

  /** Ranks two to five get their exact share rounded down; rank one gets at least its exact share and
      less than four units more. */
  lemma SharesAreFair(gross: nat, bps: seq<int>, i: nat)
    requires ValidBps(bps) && i < 5
    ensures var credit, exact := ExpectedCredits(gross, bps).value.credits[i] * SCALE, Net(gross) * bps[i];
            if i == 0 then exact <= credit < exact + 4 * SCALE else credit <= exact < credit + SCALE
  {
    if i == 0 {
      FloorsMiss(Net(gross), bps);
      FirstCredit(gross, bps);
    } else {
      FloorOf(Net(gross) * bps[i]);
    }
  }

  lemma FloorMonotone(net: nat, a: int, b: int)
    requires a >= b
    ensures net * a / SCALE >= net * b / SCALE
  {
    assert net * a == net * b + net * (a - b);
    FloorOf(net * a);
    FloorOf(net * b);
  }

  /** Non-increasing BPS give non-increasing credits: the remainder never lets a lower rank overtake. */
  lemma RanksOrdered(gross: nat, bps: seq<int>, i: nat, j: nat)
    requires ValidBps(bps) && i < j < 5
    requires forall a, b :: 0 <= a < b < 5 ==> bps[a] >= bps[b]
    ensures ExpectedCredits(gross, bps).value.credits[i] >= ExpectedCredits(gross, bps).value.credits[j] >= 0
  {
    FloorMonotone(Net(gross), bps[i], bps[j]);
    FloorMonotone(Net(gross), bps[j], 0);
    SplitConserves(gross, bps);
  }

  /** The split is the only one that rounds ranks two to five down and pays out everything. */
  lemma SplitUnique(gross: nat, bps: seq<int>, credits: seq<int>)
    requires ValidBps(bps) && |credits| == 5
    requires Fee(gross) + Sum(credits) == gross
    requires forall i :: 1 <= i < 5 ==> credits[i] * SCALE <= Net(gross) * bps[i] < credits[i] * SCALE + SCALE
    ensures credits == ExpectedCredits(gross, bps).value.credits
  {
    var expected := ExpectedCredits(gross, bps).value.credits;
    forall i | 1 <= i < 5 ensures credits[i] == expected[i] {
      SharesAreFair(gross, bps, i);
    }
    SumOfFive(credits);
    SumOfFive(expected);
    SplitConserves(gross, bps);
  }

  // ---------- the worker ----------

  datatype Input = Input(tournament: string, ranked: seq<string>, nonce: string, gross: nat, bps: seq<int>)
  datatype RecordState = Persisted | Submitted | Pending | Complete | SettlementRejected | RecoveryRequired
  datatype Record = Record(digest: string, state: RecordState, txHash: Option<string>)
  datatype Receipt = ReceiptPending | ReceiptSuccess | ReceiptFailed

  /** Five ranked entrants without repetition and a valid split. */
  predicate Acceptable(input: Input) {
    && |input.ranked| == 5
    && (forall i, j :: 0 <= i < j < 5 ==> input.ranked[i] != input.ranked[j])
    && ValidBps(input.bps)
  }

  /** An input is accepted exactly with five different entrants, and five BPS from 0 up that add up to 10000. */
  lemma AcceptableExactly(input: Input)
    ensures Acceptable(input) <==>
              && |input.ranked| == |set x | x in input.ranked| == 5
              && |input.bps| == 5 && (forall b :: b in input.bps ==> b >= 0)
              && input.bps[0] + input.bps[1] + input.bps[2] + input.bps[3] + input.bps[4] == 10_000
  {
    DistinctCounted(input.ranked);
    assert Distinct(input.ranked) <==>
             forall i, j :: 0 <= i < j < |input.ranked| ==> input.ranked[i] != input.ranked[j];
    if |input.bps| == 5 {
      SumOfFive(input.bps);
      assert forall i :: 0 <= i < 5 ==> input.bps[i] in input.bps;
    }
  }

  /** Lines 166-172: what a reconciliation of a known transaction records; None where a call throws. */
  function Verdict(input: Input, receipt: Option<Receipt>, actual: Option<View>): Option<RecordState> {
    match receipt
    case None => None
    case Some(ReceiptPending) => Some(Pending)
    case Some(ReceiptFailed) => Some(SettlementRejected)
    case Some(ReceiptSuccess) =>
      if actual.None? then None
      else if actual == ExpectedCredits(input.gross, input.bps) then Some(Complete) else Some(RecoveryRequired)
  }

  /** A settlement is COMPLETE exactly on a successful receipt and a readback of the expected split, to be recovered
      exactly on a successful receipt and another readback, and rejected exactly on a failed receipt. */
  lemma VerdictExactly(input: Input, receipt: Option<Receipt>, actual: Option<View>)
    requires ValidBps(input.bps)
    ensures var v, expected := Verdict(input, receipt, actual), ExpectedCredits(input.gross, input.bps);
            && expected.Some?
            && (v == Some(Complete) <==> receipt == Some(ReceiptSuccess) && actual == expected)
            && (v == Some(RecoveryRequired) <==>
                  receipt == Some(ReceiptSuccess) && actual.Some? && actual.value != expected.value)
            && (v == Some(SettlementRejected) <==> receipt == Some(ReceiptFailed))
            && (v == Some(Pending) <==> receipt == Some(ReceiptPending))
            && (v == None <==> receipt.None? || (receipt == Some(ReceiptSuccess) && actual.None?))
  {
    SplitConserves(input.gross, input.bps);
  }

  /** What a reconciliation reads: the receipt, and the settlement if the receipt is a success. */
  datatype Reading = Reading(receipt: Option<Receipt>, actual: Option<View>)

  /** The state a record is left in by reconciliations with these readings, in turn. */
  function Reconciled(input: Input, state: RecordState, readings: seq<Reading>): RecordState {
    if readings == [] then state
    else
      var last := readings[|readings| - 1];
      match Verdict(input, last.receipt, last.actual)
      case None => Reconciled(input, state, readings[..|readings| - 1])
      case Some(verdict) => verdict
  }

  /** The readings that leave a COMPLETE record COMPLETE: the receipt call throws, or it is a success whose
      readback throws or is the expected split. */
  predicate Keeps(input: Input, r: Reading) {
    r.receipt.None?
    || (r.receipt == Some(ReceiptSuccess) && (r.actual.None? || r.actual == ExpectedCredits(input.gross, input.bps)))
  }

  /** A COMPLETE record stays COMPLETE throughout a history of reconciliations exactly when every reading
      is such a one. */
  lemma {:induction false} CompleteStaysExactly(input: Input, readings: seq<Reading>)
    ensures (forall n :: 0 <= n <= |readings| ==> Reconciled(input, Complete, readings[..n]) == Complete)
       <==> forall i :: 0 <= i < |readings| ==> Keeps(input, readings[i])
  {
    if readings != [] {
      var n := |readings| - 1;
      var front := readings[..n];
      CompleteStaysExactly(input, front);
      assert forall k :: 0 <= k <= n ==> front[..k] == readings[..k];
      assert readings[..n + 1] == readings;
    }
  }

  /** What a history ends with is what the last reading that did not throw says; so COMPLETE is left by a
      later failure, and regained by a later success. */
  lemma {:induction false} LastReadingDecides(input: Input, state: RecordState, readings: seq<Reading>, k: nat)
    requires k < |readings| && Verdict(input, readings[k].receipt, readings[k].actual).Some?
    requires forall i :: k < i < |readings| ==> Verdict(input, readings[i].receipt, readings[i].actual).None?
    ensures Reconciled(input, state, readings) == Verdict(input, readings[k].receipt, readings[k].actual).value
  {
    if k < |readings| - 1 { LastReadingDecides(input, state, readings[..|readings| - 1], k); }
  }

  class SettlementWorker {
    const digest: Input -> string
    var records: map<string, Record>
    /** What each tournament was last reconciled against. */
    ghost var checked: map<string, (Input, View)>
    ghost var sends: nat

    /** A COMPLETE record was read back as the exact split of the input it is bound to. */
    ghost predicate Valid()
      reads this
    {
      forall t :: t in records && records[t].state == Complete ==>
        && t in checked && records[t].txHash.Some?
        && records[t].digest == digest(checked[t].0) && checked[t].0.tournament == t
        && ExpectedCredits(checked[t].0.gross, checked[t].0.bps) == Some(checked[t].1)
    }

    /** So fee and credits of every COMPLETE settlement add up to its gross pool. */
    lemma CompleteConserves(t: string)
      requires Valid() && t in records && records[t].state == Complete
      ensures checked[t].1.fee + Sum(checked[t].1.credits) == checked[t].0.gross
    {
      SplitConserves(checked[t].0.gross, checked[t].0.bps);
    }

    constructor (digest: Input -> string)
      ensures Valid() && records == map[] && sends == 0 && this.digest == digest
    {
      this.digest := digest;
      records, checked, sends := map[], map[], 0;
    }

    /** The record a submission of this input finds already bound to it, with its transaction. */
    ghost predicate Bound(input: Input)
      reads this
    {
      && Acceptable(input) && input.tournament in records
      && records[input.tournament].digest == digest(input) && records[input.tournament].txHash.Some?
    }

    /** A submission that is sent: acceptable, and either new or bound to this input without a transaction. */
    ghost predicate Fresh(input: Input)
      reads this
    {
      && Acceptable(input)
      && (input.tournament in records ==>
            records[input.tournament].digest == digest(input) && records[input.tournament].txHash.None?)
    }

    /** `answer` is the transaction hash, or None when the port throws or returns no 32-byte hash. A fresh
        submission is sent once and stored with the answer; a known transaction is returned and never sent
        again; anything else throws and changes nothing. */
    method Submit(input: Input, answer: Option<string>) returns (r: Option<string>)
      requires Valid()
      modifies `records, `sends
      ensures Valid()
      ensures old(Fresh(input)) ==>
        && sends == old(sends) + 1 && r == answer
        && records == old(records)[input.tournament :=
             if answer.Some? then Record(digest(input), Submitted, answer) else Record(digest(input), Persisted, None)]
      ensures !old(Fresh(input)) ==>
        && sends == old(sends) && records == old(records)
        && r == if old(Bound(input)) then old(records)[input.tournament].txHash else None
    {
      if !Acceptable(input) { return None; }
      if input.tournament in records {
        if records[input.tournament].digest != digest(input) { return None; }
        if records[input.tournament].txHash.Some? { return records[input.tournament].txHash; }
      }
      records := records[input.tournament := Record(digest(input), Persisted, None)];
      sends := sends + 1;
      if answer.None? { return None; }
      records := records[input.tournament := Record(digest(input), Submitted, answer)];
      return answer;
    }

    /** The record of a bound input takes the state its reading calls for; nothing changes where a call
        throws or the input is not the bound one. */
    method Reconcile(input: Input, receipt: Option<Receipt>, actual: Option<View>) returns (r: Option<RecordState>)
      requires Valid()
      modifies `records, `checked
      ensures Valid()
      ensures r == if old(Bound(input)) then Verdict(input, receipt, actual) else None
      ensures records ==
        if r.Some? then old(records)[input.tournament := old(records)[input.tournament].(state := r.value)]
        else old(records)
      ensures old(Bound(input)) ==>
        records[input.tournament].state
        == Reconciled(input, old(records)[input.tournament].state, [Reading(receipt, actual)])
    {
      assert [Reading(receipt, actual)][..0] == [];
      if !Acceptable(input) { return None; }
      var t := input.tournament;
      if t !in records || records[t].txHash.None? || records[t].digest != digest(input) { return None; }
      if receipt.None? { return None; }
      var state;
      match receipt.value {
        case ReceiptPending => state := Pending;
        case ReceiptFailed => state := SettlementRejected;
        case ReceiptSuccess =>
          if actual.None? { return None; }
          if actual != ExpectedCredits(input.gross, input.bps) {
            state := RecoveryRequired;
          } else {
            checked := checked[t := (input, actual.value)];
            state := Complete;
          }
      }
      records := records[t := records[t].(state := state)];
      return Some(state);
    }

  }

  /** It happens: a settlement read back as COMPLETE is PENDING once the receipt is not found any more, and
      rejected once it is a failure. */
  method CompleteIsLeft() returns (first: RecordState, second: RecordState, third: RecordState)
    ensures first == Complete && second == Pending && third == SettlementRejected
  {
    var input := Input("t", ["a", "b", "c", "d", "e"], "1", 1_000, [5_000, 2_000, 1_500, 1_000, 500]);
    SumOfFive(input.bps);
    var worker := new SettlementWorker(i => "digest");
    var sent := worker.Submit(input, Some("0x1"));
    var expected := ExpectedCredits(input.gross, input.bps);
    var r := worker.Reconcile(input, Some(ReceiptSuccess), expected);
    first := r.value;
    r := worker.Reconcile(input, Some(ReceiptPending), None);
    second := r.value;
    r := worker.Reconcile(input, Some(ReceiptFailed), None);
    third := r.value;
  }
}
