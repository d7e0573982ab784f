// Several workers sharing one leased operation: PersistentEvaluationRunStore.submitOnce and pollOnce
// (packages/evaluation/src/run-tracker.ts:137-167) over claimLease and releaseLease
// (packages/persistence/src/sqlite-runtime.ts:235-276). The same wrapper guards campaigns,
// settlements and payouts.

module Leases {
  import opened Wrappers
  import opened RuntimeStore

  /** One operation key. Worker identifiers are distinct, so a worker is its identifier; the map
      gives the lease end of every operation that is running, as its worker computed it. */
  datatype System = System(leases: map<Key, Lease>, running: map<string, nat>, now: nat)

  datatype Step =
    | Begin(worker: string, fingerprint: string, leaseMs: nat)
    | Finish(worker: string)
    | Die(worker: string)
    | Tick(ms: nat)

  /** A worker whose operation is still running joins it; otherwise it claims and starts. Finishing
      forgets the operation and releases; a dying worker releases nothing. */
  function Next(k: Key, s: System, step: Step): System {
    match step
    case Begin(w, fp, ms) =>
      if w in s.running || ClaimOutcome(s.leases, k, fp, s.now, ms) != Success(Claimed) then s
      else s.(leases := s.leases[k := Lease(fp, w, s.now + ms)], running := s.running[w := s.now + ms])
    case Finish(w) =>
      if w !in s.running then s
      else s.(running := s.running - {w}, leases := if k in s.leases && s.leases[k].owner == w then s.leases - {k}
        else s.leases)
    case Die(w) => s.(running := s.running - {w})
    case Tick(ms) => s.(now := s.now + ms)
  }

  function Run(k: Key, s: System, steps: seq<Step>): System {
    if steps == [] then s else Next(k, Run(k, s, steps[..|steps| - 1]), steps[|steps| - 1])
  }

  predicate Idle(s: System) {
    s.running == map[]
  }

  /** Every operation within its lease holds the lease. */
  ghost predicate Held(k: Key, s: System) {
    forall w :: w in s.running && s.now < s.running[w] ==>
      k in s.leases && s.leases[k].owner == w && s.leases[k].expiresAt == s.running[w]
  }

  lemma HeldStep(k: Key, s: System, step: Step)
    requires Held(k, s)
    ensures Held(k, Next(k, s, step))
  {
  }

  /** Whatever others do, however late they finish and whoever dies, an operation within its lease
      holds the lease in the table: no late finisher has deleted it, nobody has taken it over. */
  lemma {:induction false} AlwaysHeld(k: Key, s: System, steps: seq<Step>)
    requires Idle(s)
    ensures Held(k, Run(k, s, steps))
  {
    if steps != [] {
      AlwaysHeld(k, s, steps[..|steps| - 1]);
      HeldStep(k, Run(k, s, steps[..|steps| - 1]), steps[|steps| - 1]);
    }
  }

  /** Of two operations running at once, one has outlived its lease. */
  lemma Exclusion(k: Key, s: System, steps: seq<Step>, a: string, b: string)
    requires Idle(s)
    requires var t := Run(k, s, steps); a in t.running && b in t.running && a != b
    ensures var t := Run(k, s, steps); t.running[a] <= t.now || t.running[b] <= t.now
  {
    AlwaysHeld(k, s, steps);
  }

  /** Operations end within their lease throughout the history. */
  ghost predicate Timely(k: Key, s: System, steps: seq<Step>) {
    forall n, w :: 0 <= n <= |steps| && w in Run(k, s, steps[..n]).running ==>
      Run(k, s, steps[..n]).now < Run(k, s, steps[..n]).running[w]
  }

  /** Then at no point do two workers run the operation. */
  lemma NeverTwo(k: Key, s: System, steps: seq<Step>, n: nat)
    requires Idle(s) && Timely(k, s, steps) && n <= |steps|
    ensures |Run(k, s, steps[..n]).running| <= 1
  {
    var t := Run(k, s, steps[..n]);
    AlwaysHeld(k, s, steps[..n]);
    if t.running != map[] {
      var w :| w in t.running.Keys;
      assert t.running.Keys == {w};
    }
  }

  /** A second operation starts beside a running one exactly when its worker runs none itself and
      finds no lease, or one of its own fingerprint that has run out. */
  lemma StartsExactly(k: Key, s: System, w: string, fp: string, ms: nat)
    requires 1 <= ms && s.now + ms <= MAX_SAFE
    ensures Next(k, s, Begin(w, fp, ms)) != s <==>
            w !in s.running && (k !in s.leases || (s.leases[k].fingerprint == fp && s.leases[k].expiresAt <= s.now))
  {
    if w !in s.running { assert w in Next(k, s, Begin(w, fp, ms)).running <==> Next(k, s, Begin(w, fp, ms)) != s; }
  }

  /** An operation that outlives its lease can be joined by a second one; the late finisher then
      leaves the second one's lease alone. */
  lemma OverdueOverlaps(k: Key, fp: string, a: string, b: string)
    requires a != b
    ensures var s := System(map[], map[], 0);
            var two := Run(k, s, [Begin(a, fp, 10), Tick(10), Begin(b, fp, 10)]);
            && two.running == map[a := 10, b := 20]
            && Run(k, s, [Begin(a, fp, 10), Tick(10), Begin(b, fp, 10), Finish(a)])
              == System(map[k := Lease(fp, b, 20)], map[b := 20], 10)
  {
    var s := System(map[], map[], 0);
    var steps := [Begin(a, fp, 10), Tick(10), Begin(b, fp, 10), Finish(a)];
    assert steps[..3] == [Begin(a, fp, 10), Tick(10), Begin(b, fp, 10)];
    assert steps[..3][..2] == steps[..2] && steps[..2][..1] == steps[..1] && steps[..1][..0] == [];
    assert Run(k, s, steps[..1]) == System(map[k := Lease(fp, a, 10)], map[a := 10], 0);
    assert Run(k, s, steps[..2]) == System(map[k := Lease(fp, a, 10)], map[a := 10], 10);
    assert Run(k, s, steps[..3]) == System(map[k := Lease(fp, b, 20)], map[a := 10, b := 20], 10);
    assert map[a := 10, b := 20] - {a} == map[b := 20];
  }

  /** A worker that dies with a lease blocks every other fingerprint for good: only the same
      fingerprint gets past a lease that has run out. */
  lemma {:induction false} OtherFingerprintBlocked(k: Key, s: System, steps: seq<Step>, fp: string)
    requires Idle(s) && k in s.leases && s.leases[k].fingerprint != fp
    requires forall i :: 0 <= i < |steps| && steps[i].Begin? ==> steps[i].fingerprint == fp
    ensures Run(k, s, steps).running == map[] && Run(k, s, steps).leases == s.leases
  {
    if steps != [] {
      OtherFingerprintBlocked(k, s, steps[..|steps| - 1], fp);
    }
  }
}
