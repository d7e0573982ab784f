// The retrying payout worker against a ledger: packages/settlement/src/auto-payout.ts:119-231.

module AutoPayout {
  import opened Wrappers

  /** The key of an operation, within one tournament. */
  datatype Key = Credit(beneficiary: string) | PlatformFee | Close

  datatype OperationState = Submitted | Complete | Failed
  datatype PayoutRecord = PayoutRecord(state: OperationState, attempts: nat, txHash: Option<string>)
  datatype Receipt = PendingReceipt | Succeeded | Reverted
  /** Threw: the call rejects, with no outcome of its own. */
  datatype Outcome = Pending | Rejected | Done | Threw

  function At(m: map<Key, nat>, k: Key): nat {
    if k in m then m[k] else 0
  }

  /** A port call of the worker, with what it answered; None where it threw. */
  datatype Call =
    | AmountRead(key: Key, amount: Option<nat>)
    | SendMade(key: Key, hash: Option<string>)
    | ReceiptRead(txHash: string, receipt: Option<Receipt>)
    | LiabilityRead(total: Option<nat>)

  // ---------- the chain ----------

  /** The escrow of one tournament. A payout moves its whole credit at once, at any time after it was sent or
      not at all; any port call may throw. `other` is a liability outside the credits and the fee. */
  class Ledger {
    var outstanding: map<Key, nat>
    var paid: map<Key, nat>
    const other: nat
    ghost const granted: map<Key, nat>
    ghost var sent: map<Key, nat>
    /** The port calls so far. */
    ghost var calls: seq<Call>

    /** No credit is lost, paid in part, or paid twice. */
    ghost predicate Valid()
      reads this
    {
      && outstanding.Keys == paid.Keys == granted.Keys && Close !in granted
      && forall k :: k in granted ==>
           (outstanding[k] == granted[k] && paid[k] == 0) || (outstanding[k] == 0 && paid[k] == granted[k])
    }

    constructor (granted: map<Key, nat>, other: nat)
      requires Close !in granted
      ensures Valid() && this.granted == granted && this.other == other && sent == map[] && calls == []
    {
      outstanding := granted;
      paid := map k | k in granted :: 0;
      this.other := other;
      this.granted := granted;
      sent, calls := map[], [];
    }

    twostate predicate Later()
      reads this
    {
      forall k :: At(outstanding, k) <= old(At(outstanding, k))
    }

    ghost predicate Empty()
      reads this
    {
      other == 0 && forall k :: At(outstanding, k) == 0
    }

    lemma EmptyIsPaid()
      requires Valid() && Empty()
      ensures forall k :: k in granted ==> paid[k] == granted[k]
    {
      forall k | k in granted ensures paid[k] == granted[k] {
        assert At(outstanding, k) == 0;
      }
    }

    /** Transactions on their way may land. */
    method Land()
      requires Valid()
      modifies `outstanding, `paid
      ensures Valid() && Later()
    {
      var landed: set<Key> := *;
      paid := map k | k in paid :: if k in landed then paid[k] + outstanding[k] else paid[k];
      outstanding := map k | k in outstanding :: if k in landed then 0 else outstanding[k];
    }

    method ReadAmount(k: Key) returns (r: Option<nat>)
      requires Valid()
      modifies `outstanding, `paid, `calls
      ensures Valid() && Later()
      ensures r.Some? ==> r.value == At(outstanding, k)
      ensures calls == old(calls) + [AmountRead(k, r)]
    {
      Land();
      var throws: bool := *;
      r := if throws then None else Some(if k in outstanding then outstanding[k] else 0);
      calls := calls + [AmountRead(k, r)];
    }

    /** None when the port throws or the hash it returns is not 32 bytes; the transaction may be on its way
        all the same. */
    method Send(k: Key) returns (r: Option<string>)
      requires Valid()
      modifies this
      ensures Valid() && Later()
      ensures sent == old(sent[k := At(sent, k) + 1])
      ensures calls == old(calls) + [SendMade(k, r)]
    {
      sent := sent[k := At(sent, k) + 1];
      Land();
      r := *;
      calls := calls + [SendMade(k, r)];
    }

    method GetReceipt(txHash: string) returns (r: Option<Receipt>)
      requires Valid()
      modifies `outstanding, `paid, `calls
      ensures Valid() && Later()
      ensures calls == old(calls) + [ReceiptRead(txHash, r)]
    {
      Land();
      r := *;
      calls := calls + [ReceiptRead(txHash, r)];
    }

    method ReadTotalLiability() returns (r: Option<nat>)
      requires Valid()
      modifies `outstanding, `paid, `calls
      ensures Valid() && Later()
      ensures r.Some? ==> (r.value == 0 <==> Empty())
      ensures calls == old(calls) + [LiabilityRead(r)]
    {
      Land();
      var throws: bool, rest: nat := *, *;
      if throws {
        r := None;
      } else if other == 0 && forall k :: k in outstanding ==> outstanding[k] == 0 {
        r := Some(0);
      } else {
        r := Some(1 + rest);
        assert !Empty() by { if k :| k in outstanding && outstanding[k] != 0 { assert At(outstanding, k) != 0; } }
      }
      calls := calls + [LiabilityRead(r)];
    }
  }

  // ---------- the worker ----------

  function Attempts(records: map<Key, PayoutRecord>, k: Key): nat {
    if k in records then records[k].attempts else 0
  }

  predicate IsComplete(records: map<Key, PayoutRecord>, k: Key) {
    k in records && records[k].state == Complete
  }

  predicate Ready(records: map<Key, PayoutRecord>, beneficiaries: seq<string>) {
    && |beneficiaries| == 5
    && (forall i :: 0 <= i < 5 ==> IsComplete(records, Credit(beneficiaries[i])))
    && IsComplete(records, PlatformFee)
  }

  /** Attempts count the sends, but for the lost ones, and stay within the limit. */
  ghost predicate Counted(records: map<Key, PayoutRecord>, sent: map<Key, nat>, lost: map<Key, nat>, max: nat) {
    forall k :: At(sent, k) == Attempts(records, k) + At(lost, k) && Attempts(records, k) <= max
  }

  /** A completed operation has nothing left on the ledger. */
  ghost predicate Effective(records: map<Key, PayoutRecord>, outstanding: map<Key, nat>) {
    forall k :: IsComplete(records, k) ==> At(outstanding, k) == 0
  }

  ghost predicate Keeps(before: map<Key, PayoutRecord>, after: map<Key, PayoutRecord>) {
    forall k :: IsComplete(before, k) ==> IsComplete(after, k)
  }

  lemma CountedRestate(records: map<Key, PayoutRecord>, sent: map<Key, nat>, lost: map<Key, nat>, max: nat, key: Key,
      r: PayoutRecord)
    requires Counted(records, sent, lost, max) && r.attempts == Attempts(records, key)
    ensures Counted(records[key := r], sent, lost, max)
  {
  }

  lemma EffectiveUpdate(records: map<Key, PayoutRecord>, outstanding: map<Key, nat>, key: Key, r: PayoutRecord)
    requires Effective(records, outstanding) && (r.state == Complete ==> At(outstanding, key) == 0)
    ensures Effective(records[key := r], outstanding)
  {
  }

  lemma PutKeeps(records: map<Key, PayoutRecord>, key: Key, r: PayoutRecord, beneficiaries: seq<string>)
    requires !IsComplete(records, key) || r.state == Complete
    ensures Keeps(records, records[key := r])
    ensures Ready(records, beneficiaries) ==> Ready(records[key := r], beneficiaries)
  {
  }

  // ---------- what is still open ----------

  function LabelIf(open: bool, name: string): seq<string> {
    if open then [name] else []
  }

  /** The labels of the credits that are not complete, in the order they are processed in. */
  function OpenCredits(records: map<Key, PayoutRecord>, beneficiaries: seq<string>): seq<string> {
    if beneficiaries == [] then []
    else
      var n := |beneficiaries| - 1;
      OpenCredits(records, beneficiaries[..n])
      + LabelIf(!IsComplete(records, Credit(beneficiaries[n])), "credit:" + beneficiaries[n])
  }

  function Open(records: map<Key, PayoutRecord>, beneficiaries: seq<string>): seq<string> {
    OpenCredits(records, beneficiaries) + LabelIf(!IsComplete(records, PlatformFee), "platform-fee")
  }

  /** The failures are all that is open, or, with an operation pending, some of it and not all. */
  predicate Reports(open: seq<string>, failures: seq<string>, pending: bool) {
    if pending then |failures| < |open| && forall f :: f in failures ==> f in open else failures == open
  }

  lemma {:induction false} OpenCreditsSame(a: map<Key, PayoutRecord>, b: map<Key, PayoutRecord>,
      beneficiaries: seq<string>)
    requires forall x :: x in beneficiaries ==> (IsComplete(a, Credit(x)) <==> IsComplete(b, Credit(x)))
    ensures OpenCredits(a, beneficiaries) == OpenCredits(b, beneficiaries)
  {
    if beneficiaries != [] { OpenCreditsSame(a, b, beneficiaries[..|beneficiaries| - 1]); }
  }

  lemma {:induction false} NoOpenCredits(records: map<Key, PayoutRecord>, beneficiaries: seq<string>)
    ensures OpenCredits(records, beneficiaries) == [] <==>
              forall i :: 0 <= i < |beneficiaries| ==> IsComplete(records, Credit(beneficiaries[i]))
  {
    if beneficiaries != [] {
      var n := |beneficiaries| - 1;
      NoOpenCredits(records, beneficiaries[..n]);
      assert forall i :: 0 <= i < n ==> beneficiaries[..n][i] == beneficiaries[i];
    }
  }

  /** Nothing is open exactly when all five credits and the fee are complete. */
  lemma ReadyExactly(records: map<Key, PayoutRecord>, beneficiaries: seq<string>)
    requires |beneficiaries| == 5
    ensures Open(records, beneficiaries) == [] <==> Ready(records, beneficiaries)
  {
    NoOpenCredits(records, beneficiaries);
  }

  lemma ReportsOneMore(before: map<Key, PayoutRecord>, after: map<Key, PayoutRecord>, done: seq<string>, x: string,
      failures: seq<string>, pending: bool, state: Outcome)
    requires forall y :: y in done ==> (IsComplete(before, Credit(y)) <==> IsComplete(after, Credit(y)))
    requires Reports(OpenCredits(before, done), failures, pending)
    requires state != Threw && (state == Done <==> IsComplete(after, Credit(x)))
    ensures Reports(OpenCredits(after, done + [x]), failures + LabelIf(state == Rejected, "credit:" + x),
                    pending || state == Pending)
  {
    OpenCreditsSame(before, after, done);
    assert (done + [x])[..|done|] == done;
  }

  // ---------- what the port calls of an operation mean ----------

  function RecordOf(records: map<Key, PayoutRecord>, k: Key): Option<PayoutRecord> {
    if k in records then Some(records[k]) else None
  }

  predicate Failing(c: Call) {
    match c
    case AmountRead(_, amount) => amount.None?
    case SendMade(_, hash) => hash.None?
    case ReceiptRead(_, receipt) => receipt.None?
    case LiabilityRead(total) => total.None?
  }

  function SendsIn(t: seq<Call>): nat {
    if t == [] then 0 else SendsIn(t[..|t| - 1]) + if t[|t| - 1].SendMade? then 1 else 0
  }

  /** The last call of an operation, and what it read. */
  predicate LastReceipt(t: seq<Call>, receipt: Receipt) {
    t != [] && t[|t| - 1].ReceiptRead? && t[|t| - 1].receipt == Some(receipt)
  }

  predicate LastAmount(t: seq<Call>, zero: bool) {
    t != [] && t[|t| - 1].AmountRead? && t[|t| - 1].amount.Some? && (t[|t| - 1].amount.value == 0) == zero
  }

  predicate LastFails(t: seq<Call>) {
    t != [] && Failing(t[|t| - 1])
  }

  /** A transaction has been submitted whose receipt can be asked for. */
  predicate InFlight(record: Option<PayoutRecord>) {
    record.Some? && record.value.state == Submitted && record.value.txHash.Some?
  }

  predicate Completed(record: Option<PayoutRecord>) {
    record.Some? && record.value.state == Complete
  }

  /** No transaction is in flight, or its receipt reads that it was reverted. */
  predicate MayRetry(record: Option<PayoutRecord>, t: seq<Call>) {
    InFlight(record) ==> t != [] && t[0] == ReceiptRead(record.value.txHash.value, Some(Reverted))
  }

  /** An attempt is due: not complete, attempts left, nothing in flight. */
  predicate Due(record: Option<PayoutRecord>, max: nat, t: seq<Call>) {
    !Completed(record) && MayRetry(record, t) && (if record.Some? then record.value.attempts < max else 0 < max)
  }

  /** What an operation with these calls has sent and answered, from the record it began with. It sends once exactly
      when an attempt is due. Pending: the last receipt is pending. Threw: a call before any send threw. Done: it was
      complete, or the last call shows the effect. Rejected: the limit is reached, the last call shows a revert or no
      effect, or a call threw at or after the send. */
  predicate Transacted(record: Option<PayoutRecord>, max: nat, key: Key, t: seq<Call>, r: Outcome) {
    && SendsIn(t) == (if Due(record, max, t) then 1 else 0)
    && (!Completed(record) && InFlight(record) ==>
          t != [] && t[0].ReceiptRead? && t[0].txHash == record.value.txHash.value)
    && (r == Pending <==> LastReceipt(t, PendingReceipt))
    && (r == Threw <==> SendsIn(t) == 0 && LastFails(t))
    && (r == Done <==>
          Completed(record) || LastAmount(t, true) || (key == Close && LastReceipt(t, Succeeded)))
    && (r == Rejected <==>
          && !Completed(record)
          && ((MayRetry(record, t) && !Due(record, max, t)) || LastReceipt(t, Reverted) || LastAmount(t, false)
              || (SendsIn(t) == 1 && LastFails(t))))
  }

  /** The record that such an operation leaves. */
  predicate Leaves(record: Option<PayoutRecord>, max: nat, t: seq<Call>, r: Outcome, after: Option<PayoutRecord>) {
    if Due(record, max, t) then
      && after.Some? && after.value.attempts == (if record.Some? then record.value.attempts else 0) + 1
      && after.value.state == (if r == Pending then Submitted else if r == Done then Complete else Failed)
      && exists i :: 0 <= i < |t| && t[i].SendMade?
           && after.value.txHash == if LastFails(t) then None else t[i].hash
    else if r == Done && InFlight(record) then after == Some(record.value.(state := Complete))
    else if InFlight(record) && MayRetry(record, t) then after == Some(record.value.(state := Failed))
    else after == record
  }

  /** What an operation answers, and what it leaves. */
  predicate Accounts(record: Option<PayoutRecord>, max: nat, key: Key, t: seq<Call>, r: Outcome,
      after: Option<PayoutRecord>)
  {
    Transacted(record, max, key, t, r) && Leaves(record, max, t, r, after)
  }

  /** A value operation reads its amount first, and goes on where that is not zero. */
  predicate Settled(record: Option<PayoutRecord>, max: nat, key: Key, t: seq<Call>, r: Outcome) {
    && t != [] && t[0].AmountRead? && t[0].key == key
    && match t[0].amount
       case None => |t| == 1 && r == Threw
       case Some(n) => if n == 0 then |t| == 1 && r == Done else Transacted(record, max, key, t[1..], r)
  }

  /** A payout is sent: the amount reads other than zero, and an attempt is due. */
  predicate PaysOut(record: Option<PayoutRecord>, max: nat, t: seq<Call>) {
    && t != [] && t[0].AmountRead? && t[0].amount.Some? && t[0].amount.value != 0
    && Due(record, max, t[1..])
  }

  lemma SettledFrom(record: Option<PayoutRecord>, max: nat, key: Key, amount: nat, rest: seq<Call>, r: Outcome)
    requires amount != 0 && Transacted(record, max, key, rest, r)
    ensures var t := [AmountRead(key, Some(amount))] + rest;
            Settled(record, max, key, t, r) && SendsIn(rest) == if PaysOut(record, max, t) then 1 else 0
  {
    assert ([AmountRead(key, Some(amount))] + rest)[1..] == rest;
  }

  /** The calls of one attempt after its send, in order. */
  predicate Observed(key: Key, txHash: string, t: seq<Call>, r: Outcome) {
    && t != [] && t[0].ReceiptRead? && t[0].txHash == txHash
    && match t[0].receipt
       case None => |t| == 1 && r == Rejected
       case Some(PendingReceipt) => |t| == 1 && r == Pending
       case Some(Reverted) => |t| == 1 && r == Rejected
       case Some(Succeeded) =>
         if key == Close then |t| == 1 && r == Done
         else |t| == 2 && t[1].AmountRead? && t[1].key == key && r == if t[1].amount == Some(0) then Done else Rejected
  }

  /** What throws after the send counts as a failure. */
  function OrRejected(r: Option<Outcome>): Outcome {
    if r.Some? then r.value else Rejected
  }

  /** The calls of one attempt, in order. */
  predicate Attempted(key: Key, t: seq<Call>, r: Outcome) {
    && t != [] && t[0].SendMade? && t[0].key == key
    && if t[0].hash.None? then |t| == 1 && r == Rejected else Observed(key, t[0].hash.value, t[1..], r)
  }

  /** The calls that follow a transaction in flight; None when a new attempt may be made. */
  predicate Followed(key: Key, txHash: string, t: seq<Call>, r: Option<Outcome>) {
    && t != [] && t[0].ReceiptRead? && t[0].txHash == txHash
    && match t[0].receipt
       case None => |t| == 1 && r == Some(Threw)
       case Some(PendingReceipt) => |t| == 1 && r == Some(Pending)
       case Some(Reverted) => |t| == 1 && r == None
       case Some(Succeeded) =>
         if key == Close then |t| == 1 && r == Some(Done)
         else
           && |t| == 2 && t[1].AmountRead? && t[1].key == key
           && r == Some(match t[1].amount
                        case None => Threw
                        case Some(n) => if n == 0 then Done else Rejected)
  }

  lemma SendsTake(t: seq<Call>, n: nat)
    requires n <= |t| && forall i :: n <= i < |t| ==> !t[i].SendMade?
    ensures SendsIn(t) == SendsIn(t[..n])
  {
    if n == |t| {
      assert t[..n] == t;
    } else {
      SendsTake(t[..|t| - 1], n);
      assert t[..|t| - 1][..n] == t[..n];
    }
  }

  lemma AttemptSends(key: Key, before: seq<Call>, t: seq<Call>, r: Outcome)
    requires Attempted(key, t, r) && forall c :: c in before ==> !c.SendMade?
    ensures SendsIn(before + t) == 1
  {
    var all, n := before + t, |before|;
    assert all[n] == t[0];
    forall i | n + 1 <= i < |all| ensures !all[i].SendMade? { assert all[i] == t[1..][i - n - 1]; }
    SendsTake(all, n + 1);
    assert all[..n + 1][..n] == before;
    forall i | 0 <= i < n ensures !before[i].SendMade? { assert before[i] in before; }
    SendsTake(before, 0);
  }

  lemma NoSends(t: seq<Call>)
    requires forall i :: 0 <= i < |t| ==> !t[i].SendMade?
    ensures SendsIn(t) == 0
  {
    SendsTake(t, 0);
  }

  lemma FollowedMeans(record: PayoutRecord, max: nat, key: Key, t: seq<Call>, r: Outcome)
    requires InFlight(Some(record)) && Followed(key, record.txHash.value, t, Some(r))
    ensures SendsIn(t) == 0 && Transacted(Some(record), max, key, t, r)
    ensures Leaves(Some(record), max, t, r, Some(record.(state := if r == Done then Complete else Submitted)))
  {
    NoSends(t);
  }

  /** The record once a transaction in flight has been found reverted. */
  function Released(record: Option<PayoutRecord>): Option<PayoutRecord> {
    if InFlight(record) then Some(record.value.(state := Failed)) else record
  }

  /** What comes before an attempt: nothing, or the receipt of a reverted transaction. */
  predicate Before(record: Option<PayoutRecord>, t: seq<Call>) {
    if InFlight(record) then t == [ReceiptRead(record.value.txHash.value, Some(Reverted))] else t == []
  }

  lemma LimitMeans(record: Option<PayoutRecord>, max: nat, key: Key, t: seq<Call>)
    requires !Completed(record) && Before(record, t)
    requires if record.Some? then record.value.attempts >= max else max == 0
    ensures SendsIn(t) == 0 && Transacted(record, max, key, t, Rejected)
    ensures Leaves(record, max, t, Rejected, Released(record))
  {
    NoSends(t);
  }

  lemma AttemptMeans(record: Option<PayoutRecord>, max: nat, key: Key, before: seq<Call>, t: seq<Call>, r: Outcome,
      after: PayoutRecord)
    requires Before(record, before) && Due(record, max, before) && Attempted(key, t, r)
    requires after == PayoutRecord(if r == Pending then Submitted else if r == Done then Complete else Failed,
                                   (if record.Some? then record.value.attempts else 0) + 1,
                                   if LastFails(t) then None else t[0].hash)
    ensures SendsIn(before + t) == 1 && Transacted(record, max, key, before + t, r)
    ensures Leaves(record, max, before + t, r, Some(after))
  {
    AttemptSends(key, before, t, r);
    AttemptEnds(key, t, r);
    var all := before + t;
    SameLast(before, t);
    assert all[|before|] == t[0];
    if InFlight(record) { assert all[0] == before[0]; }
  }

  function AttemptsOf(record: Option<PayoutRecord>): nat {
    if record.Some? then record.value.attempts else 0
  }

  /** At the limit nothing happens; below it, one attempt. */
  predicate Tried(record: Option<PayoutRecord>, max: nat, key: Key, t: seq<Call>, r: Outcome,
      after: Option<PayoutRecord>)
  {
    if AttemptsOf(record) >= max then t == [] && r == Rejected && after == record
    else
      && Attempted(key, t, r)
      && after == Some(PayoutRecord(if r == Pending then Submitted else if r == Done then Complete else Failed,
                                    AttemptsOf(record) + 1, if LastFails(t) then None else t[0].hash))
  }

  /** After what comes before: the limit, or an attempt. */
  lemma TriedMeans(record: Option<PayoutRecord>, max: nat, key: Key, before: seq<Call>, t: seq<Call>, r: Outcome,
      after: Option<PayoutRecord>)
    requires !Completed(record) && Before(record, before) && Tried(Released(record), max, key, t, r, after)
    ensures SendsIn(before + t) == SendsIn(t) && Accounts(record, max, key, before + t, r, after)
  {
    if AttemptsOf(record) < max {
      AttemptMeans(record, max, key, before, t, r, after.value);
      AttemptSends(key, [], t, r);
      assert [] + t == t;
    } else {
      assert before + t == before;
      LimitMeans(record, max, key, before);
    }
  }

  lemma SameLast(before: seq<Call>, t: seq<Call>)
    requires t != []
    ensures LastFails(before + t) == LastFails(t)
    ensures forall x :: LastReceipt(before + t, x) == LastReceipt(t, x)
    ensures forall z :: LastAmount(before + t, z) == LastAmount(t, z)
  {
    assert (before + t)[|before + t| - 1] == t[|t| - 1];
  }

  lemma AttemptEnds(key: Key, t: seq<Call>, r: Outcome)
    requires Attempted(key, t, r)
    ensures r == Pending <==> LastReceipt(t, PendingReceipt)
    ensures r == Done <==> LastAmount(t, true) || (key == Close && LastReceipt(t, Succeeded))
    ensures r == Rejected <==> LastReceipt(t, Reverted) || LastAmount(t, false) || LastFails(t)
    ensures r != Threw
  {
    if t[0].hash.Some? {
      var rest := t[1..];
      assert t[|t| - 1] == rest[|rest| - 1];
      if rest[0].receipt == Some(Succeeded) && key != Close { assert rest[|rest| - 1].AmountRead?; }
    }
  }

  // ---------- the calls of a whole run ----------

  function Joined(steps: seq<seq<Call>>): seq<Call> {
    if steps == [] then [] else Joined(steps[..|steps| - 1]) + steps[|steps| - 1]
  }

  lemma Assoc<T>(a: seq<T>, b: seq<T>, c: seq<T>)
    ensures (a + b) + c == a + (b + c)
  {
  }

  lemma JoinedSnoc(steps: seq<seq<Call>>, t: seq<Call>)
    ensures Joined(steps + [t]) == Joined(steps) + t
  {
    assert (steps + [t])[..|steps|] == steps;
  }

  lemma CallsSnoc(calls: seq<Call>, steps: seq<seq<Call>>, more: seq<seq<Call>>)
    requires |more| == |steps| + 1 && more[..|steps|] == steps
    ensures calls + Joined(steps) + more[|steps|] == calls + Joined(more)
  {
    assert more == steps + [more[|steps|]];
    JoinedSnoc(steps, more[|steps|]);
    Assoc(calls, Joined(steps), more[|steps|]);
  }

  /** The liability is read, as zero or not. */
  predicate ReadsLiability(t: seq<Call>, zero: bool) {
    |t| == 1 && t[0].LiabilityRead? && (t[0].total == Some(0)) == zero
  }

  ghost predicate Transaction(record: Option<PayoutRecord>, max: nat, key: Key, t: seq<Call>) {
    exists r :: Transacted(record, max, key, t, r)
  }

  /** After the six value operations: the liability, and the close exactly where it reads zero. */
  ghost predicate Closes(records: map<Key, PayoutRecord>, max: nat, steps: seq<seq<Call>>) {
    && (|steps| >= 7 ==> ReadsLiability(steps[6], |steps| >= 8))
    && (|steps| >= 8 ==> Transaction(RecordOf(records, Close), max, Close, steps[7]))
  }

  ghost predicate ValueOperation(record: Option<PayoutRecord>, max: nat, key: Key, t: seq<Call>) {
    exists r :: Settled(record, max, key, t, r)
  }

  /** The value operations of a run: the credits in order, and the fee. */
  function ValueKey(beneficiaries: seq<string>, i: nat): Key
    requires |beneficiaries| == 5 && i < 6
  {
    if i < 5 then Credit(beneficiaries[i]) else PlatformFee
  }

  predicate PaidIn(records: map<Key, PayoutRecord>, max: nat, key: Key, steps: seq<seq<Call>>, i: nat) {
    i < |steps| && PaysOut(RecordOf(records, key), max, steps[i])
  }

  /** Each operation so far has the calls of a value operation, and has been sent exactly if it pays out. */
  ghost predicate Steps(records: map<Key, PayoutRecord>, max: nat, beneficiaries: seq<string>, steps: seq<seq<Call>>,
      before: map<Key, nat>, after: map<Key, nat>)
    requires |beneficiaries| == 5
  {
    forall i :: 0 <= i < 6 ==>
      var key := ValueKey(beneficiaries, i);
      && (i < |steps| ==> ValueOperation(RecordOf(records, key), max, key, steps[i]))
      && At(after, key) == At(before, key) + if PaidIn(records, max, key, steps, i) then 1 else 0
  }

  lemma JoinedTwo(a: seq<Call>, b: seq<Call>)
    ensures Joined([a]) == a && Joined([a, b]) == a + b
  {
    assert [a][..0] == [] && [a, b][..1] == [a];
  }

  lemma {:induction false} JoinedMore(a: seq<seq<Call>>, b: seq<seq<Call>>)
    ensures Joined(a + b) == Joined(a) + Joined(b)
  {
    if b == [] {
      assert a + b == a;
    } else {
      var n := |b| - 1;
      JoinedMore(a, b[..n]);
      assert a + b == (a + b[..n]) + [b[n]];
      JoinedSnoc(a + b[..n], b[n]);
      Assoc(Joined(a), Joined(b[..n]), b[n]);
    }
  }

  /** What comes after the value operations sends none of them. */
  lemma LaterSteps(records: map<Key, PayoutRecord>, max: nat, beneficiaries: seq<string>, steps: seq<seq<Call>>,
      last: seq<seq<Call>>, before: map<Key, nat>, now: map<Key, nat>, after: map<Key, nat>)
    requires |beneficiaries| == 5 && |steps| == 6 && Steps(records, max, beneficiaries, steps, before, now)
    requires forall k :: k != Close ==> At(after, k) == At(now, k)
    ensures Steps(records, max, beneficiaries, steps + last, before, after)
  {
    var more := steps + last;
    assert forall i :: 0 <= i < 6 ==> more[i] == steps[i];
  }

  lemma NextStep(records: map<Key, PayoutRecord>, max: nat, beneficiaries: seq<string>, steps: seq<seq<Call>>,
      t: seq<Call>, r: Outcome, before: map<Key, nat>, now: map<Key, nat>, after: map<Key, nat>)
    requires |beneficiaries| == 5 && (forall i, j :: 0 <= i < j < 5 ==> beneficiaries[i] != beneficiaries[j])
    requires |steps| < 6 && Steps(records, max, beneficiaries, steps, before, now)
    requires var key := ValueKey(beneficiaries, |steps|);
             && Settled(RecordOf(records, key), max, key, t, r)
             && At(after, key) == At(now, key) + (if PaysOut(RecordOf(records, key), max, t) then 1 else 0)
             && forall k :: k != key ==> At(after, k) == At(now, k)
    ensures Steps(records, max, beneficiaries, steps + [t], before, after)
  {
    var more := steps + [t];
    forall i | 0 <= i < 6
      ensures var key := ValueKey(beneficiaries, i);
              && (i < |more| ==> ValueOperation(RecordOf(records, key), max, key, more[i]))
              && At(after, key) == At(before, key) + if PaidIn(records, max, key, more, i) then 1 else 0
    {
      if i < |steps| { assert more[i] == steps[i]; }
      if i != |steps| { assert ValueKey(beneficiaries, i) != ValueKey(beneficiaries, |steps|); }
    }
  }

  // ---------- the worker of one tournament ----------

  datatype RunState = PayoutPending | PartialFailure | RecoveryRequired | AllComplete
  datatype RunOutcome = RunOutcome(state: RunState, failures: seq<string>)

  class AutomaticPayoutWorker {
    const maxAttempts: nat
    const arc: Ledger
    var records: map<Key, PayoutRecord>
    /** Sends whose process died before the record was stored. */
    ghost var lost: map<Key, nat>
    /** The beneficiaries of the run that first sent the close. */
    ghost var closedFor: seq<string>

    constructor (arc: Ledger, maxAttempts: nat)
      requires maxAttempts >= 1 && arc.Valid() && arc.sent == map[]
      ensures Valid() && this.arc == arc && this.maxAttempts == maxAttempts && records == map[] && lost == map[]
    {
      this.arc, this.maxAttempts := arc, maxAttempts;
      records, lost, closedFor := map[], map[], [];
    }

    /** Attempts count the sends exactly, a completed credit is gone from the ledger, and the close was
        sent only when everything else was complete and nothing was owed. */
    ghost predicate Valid()
      reads this, arc
    {
      && arc.Valid()
      && Counted(records, arc.sent, lost, maxAttempts)
      && Effective(records, arc.outstanding)
      && (At(arc.sent, Close) > 0 ==> arc.Empty() && Ready(records, closedFor))
    }

    /** What any call leaves as it was: COMPLETE records, and the ledger's credits but for payments. */
    twostate predicate Onward()
      reads this, arc
    {
      Keeps(old(records), records) && arc.Later() && lost == old(lost)
    }

    twostate predicate OnlyFor(key: Key)
      reads this, arc
    {
      && (forall k :: k != key ==>
            (k in records <==> k in old(records)) && (k in records ==> records[k] == old(records)[k]))
      && (forall k :: k != key ==> At(arc.sent, k) == old(At(arc.sent, k)))
    }

    predicate EffectRead(key: Key, t: seq<Call>, r: Option<bool>) {
      if key == Close then t == [] && r == Some(true)
      else
        && |t| == 1 && t[0].AmountRead? && t[0].key == key
        && r == if t[0].amount.None? then None else Some(t[0].amount.value == 0)
    }

    /** The canonical effect of a value operation is that its credit reads zero; a close has none to read. */
    method EffectApplied(key: Key) returns (r: Option<bool>, ghost t: seq<Call>)
      requires arc.Valid()
      modifies arc`outstanding, arc`paid, arc`calls
      ensures arc.Valid() && arc.Later()
      ensures r == Some(true) ==> At(arc.outstanding, key) == 0
      ensures arc.calls == old(arc.calls) + t && EffectRead(key, t, r)
    {
      t := [];
      if key == Close { return Some(true), t; }
      var amount := arc.ReadAmount(key);
      t := [AmountRead(key, amount)];
      r := if amount.None? then None else Some(amount.value == 0);
    }

    /** Lines 198-208: what becomes of a submitted transaction; None when a new attempt may be made. */
    method Follow(key: Key, record: PayoutRecord) returns (r: Option<Outcome>, ghost t: seq<Call>)
      requires Valid() && key in records && records[key] == record && record.state == Submitted && record.txHash.Some?
      modifies `records, arc`outstanding, arc`paid, arc`calls
      ensures Valid() && Onward() && OnlyFor(key) && Attempts(records, key) == Attempts(old(records), key)
      ensures r == Some(Done) <==> IsComplete(records, key)
      ensures arc.calls == old(arc.calls) + t && Followed(key, record.txHash.value, t, r)
      ensures key in records
      ensures records[key]
        == record.(state := if r == Some(Done) then Complete else if r == None then Failed else Submitted)
    {
      var observed := arc.GetReceipt(record.txHash.value);
      t := [ReceiptRead(record.txHash.value, observed)];
      if observed.None? { return Some(Threw), t; }
      if observed.value == PendingReceipt { return Some(Pending), t; }
      if observed.value == Succeeded {
        var applied, effect := EffectApplied(key);
        t := t + effect;
        if applied.None? { return Some(Threw), t; }
        if !applied.value { return Some(Rejected), t; }
        Restate(key, Complete, record.txHash);
        return Some(Done), t;
      }
      Restate(key, Failed, record.txHash);
      r := None;
    }

    /** Everything is as Valid says but for one send of `key` that has no record yet. */
    ghost predicate Unrecorded(key: Key)
      reads this, arc
    {
      && arc.Valid() && !IsComplete(records, key) && Attempts(records, key) < maxAttempts
      && (forall k ::
            At(arc.sent, k) == Attempts(records, k) + At(lost, k) + (if k == key then 1 else 0)
            && Attempts(records, k) <= maxAttempts)
      && Effective(records, arc.outstanding)
      && (At(arc.sent, Close) > 0 ==> arc.Empty() && Ready(records, closedFor))
    }

    method Transmit(key: Key) returns (r: Option<string>)
      requires Valid() && !IsComplete(records, key) && Attempts(records, key) < maxAttempts
      requires key == Close ==> arc.Empty() && Ready(records, closedFor)
      modifies arc
      ensures Unrecorded(key) && arc.Later()
      ensures arc.sent == old(arc.sent[key := At(arc.sent, key) + 1])
      ensures arc.calls == old(arc.calls) + [SendMade(key, r)]
    {
      r := arc.Send(key);
    }

    method StoreSent(key: Key, r: Option<string>)
      requires Unrecorded(key)
      modifies `records
      ensures Valid()
      ensures records == old(records)[key := PayoutRecord(if r.Some? then Submitted else Failed,
        Attempts(old(records), key) + 1, r)]
    {
      var attempts := if key in records then records[key].attempts else 0;
      var record := PayoutRecord(if r.Some? then Submitted else Failed, attempts + 1, r);
      EffectiveUpdate(records, arc.outstanding, key, record);
      PutKeeps(records, key, record, closedFor);
      records := records[key := record];
    }

    /** Lines 214-217: the send, and its record; None leaves a FAILED record without a hash. */
    method SendAttempt(key: Key) returns (r: Option<string>)
      requires Valid() && !IsComplete(records, key) && Attempts(records, key) < maxAttempts
      requires key == Close ==> arc.Empty() && Ready(records, closedFor)
      modifies `records, arc
      ensures Valid() && Onward() && OnlyFor(key)
      ensures At(arc.sent, key) == old(At(arc.sent, key)) + 1
      ensures key in records
        && records[key] == PayoutRecord(if r.Some? then Submitted else Failed, Attempts(old(records), key) + 1, r)
      ensures arc.calls == old(arc.calls) + [SendMade(key, r)]
    {
      r := Transmit(key);
      StoreSent(key, r);
    }

    method Restate(key: Key, state: OperationState, txHash: Option<string>)
      requires Valid() && key in records && !IsComplete(records, key)
      requires state == Complete ==> At(arc.outstanding, key) == 0
      modifies `records
      ensures Valid() && Onward() && OnlyFor(key)
      ensures key in records && records[key] == PayoutRecord(state, old(records)[key].attempts, txHash)
    {
      var record := PayoutRecord(state, records[key].attempts, txHash);
      CountedRestate(records, arc.sent, lost, maxAttempts, key, record);
      EffectiveUpdate(records, arc.outstanding, key, record);
      records := records[key := record];
    }

    /** The record of an attempt with these calls. */
    predicate AttemptLeaves(record: PayoutRecord, attempts: nat, t: seq<Call>, r: Outcome)
      requires t != [] && t[0].SendMade?
    {
      record == PayoutRecord(if r == Pending then Submitted else if r == Done then Complete else Failed, attempts,
                             if LastFails(t) then None else t[0].hash)
    }

    /** The receipt of a transaction just sent, and its effect where that counts; None where a call throws. */
    method Watch(key: Key, txHash: string) returns (r: Option<Outcome>, ghost t: seq<Call>)
      requires arc.Valid()
      modifies arc`outstanding, arc`paid, arc`calls
      ensures arc.Valid() && arc.Later() && arc.calls == old(arc.calls) + t
      ensures Observed(key, txHash, t, OrRejected(r)) && (r.None? <==> LastFails(t))
      ensures r == Some(Done) ==> key == Close || At(arc.outstanding, key) == 0
    {
      var observed := arc.GetReceipt(txHash);
      t := [ReceiptRead(txHash, observed)];
      if observed.None? { return None, t; }
      if observed.value == PendingReceipt { return Some(Pending), t; }
      if observed.value == Reverted { return Some(Rejected), t; }
      var applied, effect := EffectApplied(key);
      t := t + effect;
      r := if applied.None? then None else Some(if applied.value then Done else Rejected);
    }

    /** Lines 218-229: what becomes of a transaction just sent. */
    method Observe(key: Key, txHash: string) returns (r: Outcome, ghost t: seq<Call>)
      requires Valid() && key in records && records[key].state == Submitted && records[key].txHash == Some(txHash)
      requires key == Close ==> arc.Empty()
      modifies `records, arc`outstanding, arc`paid, arc`calls
      ensures Valid() && Onward() && OnlyFor(key)
      ensures arc.calls == old(arc.calls) + t && Observed(key, txHash, t, r)
      ensures key in records && records[key] == old(records)[key].(
        state := if r == Pending then Submitted else if r == Done then Complete else Failed,
        txHash := if LastFails(t) then None else Some(txHash))
    {
      var watched;
      watched, t := Watch(key, txHash);
      r := OrRejected(watched);
      if watched.None? {
        Restate(key, Failed, None);
      } else if r != Pending {
        Restate(key, if r == Done then Complete else Failed, Some(txHash));
      }
    }

    /** Lines 210-229: one attempt. Whatever throws after the send leaves a FAILED record without a hash. */
    method Attempt(key: Key) returns (r: Outcome, ghost t: seq<Call>)
      requires Valid() && !IsComplete(records, key) && Attempts(records, key) < maxAttempts
      requires key == Close ==> arc.Empty() && Ready(records, closedFor)
      modifies `records, arc
      ensures Valid() && Onward() && OnlyFor(key)
      ensures Attempts(records, key) == Attempts(old(records), key) + 1
        && At(arc.sent, key) == old(At(arc.sent, key)) + 1
      ensures r == Done <==> IsComplete(records, key)
      ensures arc.calls == old(arc.calls) + t && Attempted(key, t, r)
      ensures key in records && AttemptLeaves(records[key], Attempts(old(records), key) + 1, t, r)
    {
      var txHash := SendAttempt(key);
      t := [SendMade(key, txHash)];
      if txHash.None? { return Rejected, t; }
      ghost var rest;
      r, rest := Observe(key, txHash.value);
      SameLast(t, rest);
      assert (t + rest)[1..] == rest;
      t := t + rest;
    }

    /** Lines 209-229, for the record as it is after a reverted transaction: the limit, or one more attempt. */
    method TryAgain(key: Key) returns (r: Outcome, ghost t: seq<Call>)
      requires Valid() && !IsComplete(records, key)
      requires key == Close ==> arc.Empty() && Ready(records, closedFor)
      modifies `records, arc
      ensures Valid() && Onward() && OnlyFor(key)
      ensures r == Done <==> IsComplete(records, key)
      ensures arc.calls == old(arc.calls) + t && At(arc.sent, key) == old(At(arc.sent, key)) + SendsIn(t)
      ensures Tried(RecordOf(old(records), key), maxAttempts, key, t, r, RecordOf(records, key))
    {
      t := [];
      var attempts := if key in records then records[key].attempts else 0;
      if attempts >= maxAttempts { return Rejected, t; }
      r, t := Attempt(key);
      AttemptSends(key, [], t, r);
      assert [] + t == t;
    }

    /** Lines 197-208: a transaction in flight is followed first; None when an attempt may be made. */
    method FollowInFlight(key: Key) returns (r: Option<Outcome>, ghost t: seq<Call>)
      requires Valid() && !IsComplete(records, key)
      modifies `records, arc`outstanding, arc`paid, arc`calls
      ensures Valid() && Onward() && OnlyFor(key) && arc.calls == old(arc.calls) + t
      ensures r == Some(Done) <==> IsComplete(records, key)
      ensures r.Some? ==>
        SendsIn(t) == 0 && Accounts(RecordOf(old(records), key), maxAttempts, key, t, r.value, RecordOf(records, key))
      ensures r.None? ==> Before(RecordOf(old(records), key), t)
      ensures r.None? ==> RecordOf(records, key) == Released(RecordOf(old(records), key))
    {
      t := [];
      r := None;
      if key in records && records[key].state == Submitted && records[key].txHash.Some? {
        ghost var record := records[key];
        r, t := Follow(key, records[key]);
        if r.Some? { FollowedMeans(record, maxAttempts, key, t, r.value); }
      }
    }

    /** Lines 197-229, of an operation that is not complete. */
    method ProcessOpen(key: Key) returns (r: Outcome, ghost t: seq<Call>)
      requires Valid() && !IsComplete(records, key)
      requires key == Close ==> arc.Empty() && Ready(records, closedFor)
      modifies `records, arc
      ensures Valid() && Onward() && OnlyFor(key)
      ensures r == Done <==> IsComplete(records, key)
      ensures arc.calls == old(arc.calls) + t && At(arc.sent, key) == old(At(arc.sent, key)) + SendsIn(t)
      ensures Accounts(RecordOf(old(records), key), maxAttempts, key, t, r, RecordOf(records, key))
    {
      ghost var record := RecordOf(records, key);
      var followed;
      followed, t := FollowInFlight(key);
      if followed.Some? { return followed.value, t; }
      ghost var tried;
      r, tried := TryAgain(key);
      TriedMeans(record, maxAttempts, key, t, tried, r, RecordOf(records, key));
      Assoc(old(arc.calls), t, tried);
      t := t + tried;
    }

    method ProcessTransaction(key: Key) returns (r: Outcome, ghost t: seq<Call>)
      requires Valid()
      requires key == Close ==> arc.Empty() && Ready(records, closedFor)
      modifies `records, arc
      ensures Valid() && Onward() && OnlyFor(key)
      ensures r == Done <==> IsComplete(records, key)
      ensures arc.calls == old(arc.calls) + t && At(arc.sent, key) == old(At(arc.sent, key)) + SendsIn(t)
      ensures Accounts(RecordOf(old(records), key), maxAttempts, key, t, r, RecordOf(records, key))
    {
      t := [];
      if key in records && records[key].state == Complete { return Done, t; }
      r, t := ProcessOpen(key);
    }

    method PutComplete(key: Key)
      requires Valid() && key != Close && At(arc.outstanding, key) == 0
      modifies `records
      ensures Valid() && Onward() && OnlyFor(key) && IsComplete(records, key)
    {
      var attempts := if key in records then records[key].attempts else 0;
      var txHash := if key in records then records[key].txHash else None;
      var record := PayoutRecord(Complete, attempts, txHash);
      CountedRestate(records, arc.sent, lost, maxAttempts, key, record);
      EffectiveUpdate(records, arc.outstanding, key, record);
      records := records[key := record];
    }

    /** A completed operation reads zero and is stored complete again, so it stays complete. */
    method ProcessValueOperation(key: Key) returns (r: Outcome, ghost t: seq<Call>)
      requires Valid() && key != Close
      modifies `records, arc
      ensures Valid() && Onward() && OnlyFor(key)
      ensures r == Done ==> IsComplete(records, key)
      ensures r != Threw && IsComplete(records, key) ==> r == Done
      ensures arc.calls == old(arc.calls) + t && Settled(RecordOf(old(records), key), maxAttempts, key, t, r)
      ensures At(arc.sent, key)
           == old(At(arc.sent, key)) + if PaysOut(RecordOf(old(records), key), maxAttempts, t) then 1 else 0
    {
      var amount := arc.ReadAmount(key);
      t := [AmountRead(key, amount)];
      if amount.None? { return Threw, t; }
      if amount.value == 0 {
        PutComplete(key);
        return Done, t;
      }
      ghost var rest, record := [], RecordOf(records, key);
      r, rest := ProcessTransaction(key);
      SettledFrom(record, maxAttempts, key, amount.value, rest, r);
      Assoc(old(arc.calls), t, rest);
      t := t + rest;
    }

    method ProcessClose(beneficiaries: seq<string>) returns (r: Outcome, ghost t: seq<Call>)
      requires Valid() && arc.Empty() && Ready(records, beneficiaries)
      modifies `records, `closedFor, arc
      ensures Valid() && Onward() && OnlyFor(Close)
      ensures r == Done <==> IsComplete(records, Close)
      ensures arc.calls == old(arc.calls) + t && At(arc.sent, Close) == old(At(arc.sent, Close)) + SendsIn(t)
      ensures Transacted(RecordOf(old(records), Close), maxAttempts, Close, t, r)
    {
      t := [];
      if Close in records && records[Close].state == Complete { return Done, t; }
      if At(arc.sent, Close) == 0 { closedFor := beneficiaries; }
      r, t := ProcessTransaction(Close);
    }

    predicate ValidInput(beneficiaries: seq<string>) {
      |beneficiaries| == 5 && forall i, j :: 0 <= i < j < 5 ==> beneficiaries[i] != beneficiaries[j]
    }

    /** The operations from n on still have the records the run began with, and so has the close. */
    ghost predicate Untouched(base: map<Key, PayoutRecord>, sent: map<Key, nat>, beneficiaries: seq<string>, n: nat)
      requires |beneficiaries| == 5
      reads this, arc
    {
      && (forall i :: n <= i < 6 ==>
            RecordOf(records, ValueKey(beneficiaries, i)) == RecordOf(base, ValueKey(beneficiaries, i)))
      && RecordOf(records, Close) == RecordOf(base, Close) && At(arc.sent, Close) == At(sent, Close)
    }

    /** Where a run is after its first value operations. */
    ghost predicate Underway(base: map<Key, PayoutRecord>, sent: map<Key, nat>, beneficiaries: seq<string>,
        steps: seq<seq<Call>>)
      requires |beneficiaries| == 5
      reads this, arc
    {
      Untouched(base, sent, beneficiaries, |steps|) && Steps(base, maxAttempts, beneficiaries, steps, sent, arc.sent)
    }

    /** Value operation |steps| of a run. */
    method NextValue(beneficiaries: seq<string>, ghost base: map<Key, PayoutRecord>, ghost sent: map<Key, nat>,
        ghost steps0: seq<seq<Call>>, key: Key)
      returns (state: Outcome, ghost steps: seq<seq<Call>>)
      requires Valid() && ValidInput(beneficiaries) && |steps0| < 6 && key == ValueKey(beneficiaries, |steps0|)
      requires Underway(base, sent, beneficiaries, steps0)
      modifies `records, arc
      ensures Valid() && Onward() && OnlyFor(key)
      ensures state == Done ==> IsComplete(records, key)
      ensures state != Threw && IsComplete(records, key) ==> state == Done
      ensures |steps| == |steps0| + 1 && arc.calls == old(arc.calls) + steps[|steps0|] && steps[..|steps0|] == steps0
      ensures Underway(base, sent, beneficiaries, steps)
    {
      ghost var now, t := arc.sent, [];
      state, t := ProcessValueOperation(key);
      NextStep(base, maxAttempts, beneficiaries, steps0, t, state, sent, now, arc.sent);
      steps := steps0 + [t];
      assert forall i :: |steps| <= i < 6 ==> ValueKey(beneficiaries, i) != key;
    }

    /** Where the loop over the credits is. */
    ghost predicate CreditsTo(base: map<Key, PayoutRecord>, sent: map<Key, nat>, calls: seq<Call>,
        beneficiaries: seq<string>, i: nat, failures: seq<string>, pending: bool, steps: seq<seq<Call>>)
      requires |beneficiaries| == 5
      reads this, arc
    {
      && |steps| == i <= 5 && Underway(base, sent, beneficiaries, steps) && arc.calls == calls + Joined(steps)
      && Reports(OpenCredits(records, beneficiaries[..i]), failures, pending)
    }

    /** One round of the loop over the credits. */
    method ProcessCredit(beneficiaries: seq<string>, i: nat, failures0: seq<string>, pending0: bool,
        ghost base: map<Key, PayoutRecord>, ghost sent: map<Key, nat>, ghost calls: seq<Call>,
        ghost steps0: seq<seq<Call>>)
      returns (threw: bool, failures: seq<string>, pending: bool, ghost steps: seq<seq<Call>>)
      requires Valid() && ValidInput(beneficiaries) && i < 5
      requires CreditsTo(base, sent, calls, beneficiaries, i, failures0, pending0, steps0)
      modifies `records, arc
      ensures Valid() && Onward()
      ensures |steps| == i + 1 && Underway(base, sent, beneficiaries, steps) && arc.calls == calls + Joined(steps)
      ensures !threw ==> CreditsTo(base, sent, calls, beneficiaries, i + 1, failures, pending, steps)
    {
      ghost var before := records;
      var state;
      state, steps := NextValue(beneficiaries, base, sent, steps0, Credit(beneficiaries[i]));
      CallsSnoc(calls, steps0, steps);
      failures, pending, threw := failures0, pending0, state == Threw;
      if threw { return; }
      ReportsOneMore(before, records, beneficiaries[..i], beneficiaries[i], failures, pending, state);
      assert beneficiaries[..i + 1] == beneficiaries[..i] + [beneficiaries[i]];
      if state == Rejected { failures := failures + ["credit:" + beneficiaries[i]]; }
      if state == Pending { pending := true; }
    }

    method ProcessCredits(beneficiaries: seq<string>)
      returns (failures: seq<string>, pending: bool, threw: bool, ghost steps: seq<seq<Call>>)
      requires Valid() && ValidInput(beneficiaries)
      modifies `records, arc
      ensures Valid() && Onward() && Underway(old(records), old(arc.sent), beneficiaries, steps)
      ensures |steps| <= 5 && arc.calls == old(arc.calls) + Joined(steps)
      ensures !threw ==>
        CreditsTo(old(records), old(arc.sent), old(arc.calls), beneficiaries, 5, failures, pending, steps)
    {
      failures, pending, threw, steps := [], false, false, [];
      var i := 0;
      while i < 5
        invariant 0 <= i <= 5 && Valid() && Onward()
        invariant CreditsTo(old(records), old(arc.sent), old(arc.calls), beneficiaries, i, failures, pending, steps)
      {
        threw, failures, pending, steps :=
          ProcessCredit(beneficiaries, i, failures, pending, old(records), old(arc.sent), old(arc.calls), steps);
        if threw { return; }
        i := i + 1;
      }
    }

    /** The credits and the fee. */
    method ProcessValues(beneficiaries: seq<string>)
      returns (failures: seq<string>, pending: bool, threw: bool, ghost steps: seq<seq<Call>>)
      requires Valid() && ValidInput(beneficiaries)
      modifies `records, arc
      ensures Valid() && Onward() && Underway(old(records), old(arc.sent), beneficiaries, steps)
      ensures !threw ==> Reports(Open(records, beneficiaries), failures, pending)
      ensures |steps| <= 6 && (!threw ==> |steps| == 6) && arc.calls == old(arc.calls) + Joined(steps)
    {
      failures, pending, threw, steps := ProcessCredits(beneficiaries);
      if threw { return; }
      assert beneficiaries[..5] == beneficiaries;
      threw, failures, pending, steps :=
        ProcessFee(beneficiaries, failures, pending, old(records), old(arc.sent), old(arc.calls), steps);
    }

    method ProcessFee(beneficiaries: seq<string>, failures0: seq<string>, pending0: bool,
        ghost base: map<Key, PayoutRecord>, ghost sent: map<Key, nat>, ghost calls: seq<Call>,
        ghost steps0: seq<seq<Call>>)
      returns (threw: bool, failures: seq<string>, pending: bool, ghost steps: seq<seq<Call>>)
      requires Valid() && ValidInput(beneficiaries) && Reports(OpenCredits(records, beneficiaries), failures0, pending0)
      requires |steps0| == 5 && Underway(base, sent, beneficiaries, steps0) && arc.calls == calls + Joined(steps0)
      modifies `records, arc
      ensures Valid() && Onward()
      ensures |steps| == 6 && Underway(base, sent, beneficiaries, steps) && arc.calls == calls + Joined(steps)
      ensures !threw ==> Reports(Open(records, beneficiaries), failures, pending)
    {
      ghost var before := records;
      var state;
      state, steps := NextValue(beneficiaries, base, sent, steps0, PlatformFee);
      CallsSnoc(calls, steps0, steps);
      failures, pending, threw := failures0, pending0, state == Threw;
      if threw { return; }
      OpenCreditsSame(before, records, beneficiaries);
      if state == Rejected { failures := failures + ["platform-fee"]; }
      if state == Pending { pending := true; }
    }

    /** None when a port call makes the run reject. Otherwise the outcome is decided by what is open then: COMPLETE
        means that every credit and the fee are complete and wholly paid out, nothing else is owed, and the close
        is complete; a failure names exactly the open operations; and a pending run has open ones it does not
        name. */
    method Run(beneficiaries: seq<string>) returns (r: Option<RunOutcome>, ghost steps: seq<seq<Call>>)
      requires Valid() && ValidInput(beneficiaries)
      modifies this, arc
      ensures Valid() && Onward()
      ensures r.Some? && r.value.state == AllComplete ==>
        && Ready(records, beneficiaries) && IsComplete(records, Close) && r.value.failures == []
        && arc.other == 0 && forall k :: k in arc.granted ==> arc.paid[k] == arc.granted[k]
      ensures r.Some? && r.value.state == RecoveryRequired ==>
        Ready(records, beneficiaries) && !arc.Empty() && r.value.failures == ["total-liability"]
      ensures r.Some? && r.value.state == PartialFailure ==>
        (ClosingIs(beneficiaries, r.value, ["close"]) || Open(records, beneficiaries) == r.value.failures != [])
      ensures r.Some? && r.value.state == PayoutPending ==>
        (ClosingIs(beneficiaries, r.value, []) || Reports(Open(records, beneficiaries), r.value.failures, true))
      ensures |steps| <= 8 && arc.calls == old(arc.calls) + Joined(steps)
      ensures Steps(old(records), maxAttempts, beneficiaries, steps, old(arc.sent), arc.sent)
      ensures r.Some? ==> |steps| >= 6 && (|steps| >= 7 <==> Ready(records, beneficiaries))
      ensures Closes(old(records), maxAttempts, steps)
      ensures |steps| == 8 ==> Ready(records, beneficiaries) && arc.Empty()
      ensures At(arc.sent, Close) == old(At(arc.sent, Close)) + if |steps| == 8 then SendsIn(steps[7]) else 0
    {
      var failures, pending, threw;
      failures, pending, threw, steps := ProcessValues(beneficiaries);
      if threw { return None, steps; }
      ReadyExactly(records, beneficiaries);
      if pending { return Some(RunOutcome(PayoutPending, failures)), steps; }
      if failures != [] { return Some(RunOutcome(PartialFailure, failures)), steps; }
      r, steps := FinishRun(beneficiaries, old(records), old(arc.sent), old(arc.calls), steps);
      if r.Some? && r.value.state == AllComplete { arc.EmptyIsPaid(); }
    }

    /** The end of a run in which every credit and the fee are complete. */
    method FinishRun(beneficiaries: seq<string>, ghost base: map<Key, PayoutRecord>, ghost sent: map<Key, nat>,
        ghost calls: seq<Call>, ghost steps0: seq<seq<Call>>)
      returns (r: Option<RunOutcome>, ghost steps: seq<seq<Call>>)
      requires Valid() && ValidInput(beneficiaries) && Ready(records, beneficiaries)
      requires |steps0| == 6 && Underway(base, sent, beneficiaries, steps0) && arc.calls == calls + Joined(steps0)
      modifies this, arc
      ensures Valid() && Onward() && Ready(records, beneficiaries)
      ensures r.Some? ==> EndsRun(beneficiaries, r.value)
      ensures 7 <= |steps| <= 8 && arc.calls == calls + Joined(steps)
      ensures Steps(base, maxAttempts, beneficiaries, steps, sent, arc.sent)
      ensures Closes(base, maxAttempts, steps) && (|steps| == 8 ==> arc.Empty())
      ensures At(arc.sent, Close) == At(sent, Close) + if |steps| == 8 then SendsIn(steps[7]) else 0
    {
      ghost var now, last := arc.sent, [];
      r, last := Finish(beneficiaries);
      JoinedMore(steps0, last);
      Assoc(calls, Joined(steps0), Joined(last));
      LaterSteps(base, maxAttempts, beneficiaries, steps0, last, sent, now, arc.sent);
      steps := steps0 + last;
    }

    /** All but the close is complete, nothing is owed, and the close has not come to its end. */
    ghost predicate ClosingIs(beneficiaries: seq<string>, r: RunOutcome, failures: seq<string>)
      reads this, arc
    {
      Ready(records, beneficiaries) && arc.Empty() && !IsComplete(records, Close) && r.failures == failures
    }

    /** The outcomes of a run in which every credit and the fee are complete. */
    ghost predicate EndsRun(beneficiaries: seq<string>, r: RunOutcome)
      reads this, arc
    {
      match r.state
      case AllComplete => IsComplete(records, Close) && arc.Empty() && r.failures == []
      case RecoveryRequired => !arc.Empty() && r.failures == ["total-liability"]
      case PartialFailure => ClosingIs(beneficiaries, r, ["close"])
      case PayoutPending => ClosingIs(beneficiaries, r, [])
    }

    /** What the close makes of a run. */
    method CloseRun(beneficiaries: seq<string>) returns (r: Option<RunOutcome>, ghost t: seq<Call>)
      requires Valid() && Ready(records, beneficiaries) && arc.Empty()
      modifies this, arc
      ensures Valid() && Onward() && Ready(records, beneficiaries) && arc.Empty() && OnlyFor(Close)
      ensures arc.calls == old(arc.calls) + t && Transaction(RecordOf(old(records), Close), maxAttempts, Close, t)
      ensures At(arc.sent, Close) == old(At(arc.sent, Close)) + SendsIn(t)
      ensures r.Some? ==> r.value == if IsComplete(records, Close) then RunOutcome(AllComplete, [])
                                     else if LastReceipt(t, PendingReceipt) then RunOutcome(PayoutPending, [])
                                     else RunOutcome(PartialFailure, ["close"])
    {
      var close;
      close, t := ProcessClose(beneficiaries);
      if close == Threw { return None, t; }
      if close == Pending { return Some(RunOutcome(PayoutPending, [])), t; }
      if close == Rejected { return Some(RunOutcome(PartialFailure, ["close"])), t; }
      return Some(RunOutcome(AllComplete, [])), t;
    }

    method Finish(beneficiaries: seq<string>) returns (r: Option<RunOutcome>, ghost steps: seq<seq<Call>>)
      requires Valid() && Ready(records, beneficiaries)
      modifies this, arc
      ensures Valid() && Onward() && Ready(records, beneficiaries) && OnlyFor(Close)
      ensures r.Some? ==> EndsRun(beneficiaries, r.value)
      ensures arc.calls == old(arc.calls) + Joined(steps) && 1 <= |steps| <= 2
      ensures ReadsLiability(steps[0], |steps| == 2)
      ensures |steps| == 2 ==> arc.Empty() && Transaction(RecordOf(old(records), Close), maxAttempts, Close, steps[1])
      ensures At(arc.sent, Close) == old(At(arc.sent, Close)) + if |steps| == 2 then SendsIn(steps[1]) else 0
    {
      var liability := arc.ReadTotalLiability();
      ghost var read := [LiabilityRead(liability)];
      JoinedTwo(read, []);
      steps := [read];
      if liability.None? { return None, steps; }
      if liability.value != 0 { return Some(RunOutcome(RecoveryRequired, ["total-liability"])), steps; }
      ghost var t;
      r, t := CloseRun(beneficiaries);
      JoinedTwo(read, t);
      Assoc(old(arc.calls), read, t);
      steps := [read, t];
    }

    /** The process dies between the send at line 214 and the put at line 217: one send is not counted. */
    method SendThenCrash(key: Key)
      requires Valid() && !IsComplete(records, key) && Attempts(records, key) < maxAttempts
      requires key == Close ==> arc.Empty() && Ready(records, closedFor)
      modifies arc, `lost
      ensures Valid() && arc.Later()
      ensures At(lost, key) == old(At(lost, key)) + 1
      ensures records == old(records) && At(arc.sent, key) == old(At(arc.sent, key)) + 1
    {
      var txHash := Transmit(key);
      lost := lost[key := At(lost, key) + 1];
    }

    /** A key is sent as often as its attempts and its lost sends say, and more than maxAttempts times exactly
        when more sends were lost than it has attempts left. */
    lemma SendsBounded(k: Key)
      requires Valid()
      ensures At(arc.sent, k) == Attempts(records, k) + At(lost, k) && Attempts(records, k) <= maxAttempts
      ensures At(arc.sent, k) > maxAttempts <==> At(lost, k) > maxAttempts - Attempts(records, k)
    {
      assert Counted(records, arc.sent, lost, maxAttempts);
    }
  }

  /** With a crash the bound fails: a worker allowed a single attempt sends one credit twice. */
  method CrashedSendIsRepeated(beneficiary: string, amount: nat)
      returns (arc: Ledger, worker: AutomaticPayoutWorker, r: Outcome)
    ensures fresh(arc) && fresh(worker) && worker.arc == arc && worker.Valid() && worker.maxAttempts == 1
    ensures At(arc.sent, Credit(beneficiary)) == 2
  {
    var key := Credit(beneficiary);
    arc := new Ledger(map[key := amount], 0);
    worker := new AutomaticPayoutWorker(arc, 1);
    worker.SendThenCrash(key);
    ghost var t;
    r, t := worker.Attempt(key);
  }
}
