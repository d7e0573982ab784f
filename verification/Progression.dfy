// Reading the ranking off a bracket: packages/domain/src/progression.ts, and the orchestrator's
// own slot resolver (packages/orchestrator/src/orchestrator.ts:195-205).

module Progression {
  import opened Wrappers
  import opened Canonical
  import opened Bracket

  datatype MatchResult = AWin | BWin | Tie | Retryable
  type Results = map<Digest, MatchResult>

  predicate Decisive(results: Results, id: Digest) {
    id in results && (results[id] == AWin || results[id] == BWin)
  }

  /** The slot of m that its decisive result sends on as winner or loser. */
  function Follow(m: Match, result: MatchResult, kind: Kind): Slot {
    if (kind == Winner) == (result == AWin) then m.slotA else m.slotB
  }

  function IdSet(ms: seq<Match>): set<Digest> {
    set m | m in ms :: m.id
  }

  // ---------- advanceBracket ----------

  /** The map of line 9: of equal identifiers the last stays. */
  function FindLast(ms: seq<Match>, id: Digest): (r: Option<Match>)
    ensures r.None? <==> id !in IdSet(ms)
    ensures r.Some? ==> r.value in ms && r.value.id == id
  {
    if ms == [] then None
    else if ms[|ms| - 1].id == id then Some(ms[|ms| - 1])
    else
      assert forall m :: m in ms <==> m in ms[..|ms| - 1] || m == ms[|ms| - 1];
      FindLast(ms[..|ms| - 1], id)
  }

  datatype Resolution = Resolved(entrant: Digest) | Unresolved | Throws(message: string)

  function Resolve(ms: seq<Match>, results: Results, ref: Slot, path: set<Digest>): Resolution
    decreases |IdSet(ms) - path|
  {
    if ref.kind == Entrant then Resolved(ref.id)
    else
      var parent := FindLast(ms, ref.id);
      if parent.None? then Throws("missing predecessor match")
      else if ref.id in path then Throws("cyclic ancestry")
      else if !Decisive(results, ref.id) then Unresolved
      else
        assert IdSet(ms) - (path + {ref.id}) == (IdSet(ms) - path) - {ref.id};
        Resolve(ms, results, Follow(parent.value, results[ref.id], ref.kind), path + {ref.id})
  }

  datatype Progress = Pending | Complete(ranking: seq<Digest>)

  /** The ranking loop from some source on, with the entrants ranked so far. */
  function RankFrom(ms: seq<Match>, results: Results, sources: seq<Slot>, ranking: seq<Digest>): Result<Progress> {
    if sources == [] then
      if |ranking| == 5 then Success(Complete(ranking))
      else Failure("top-five ranking must contain exactly five entrants")
    else
      match Resolve(ms, results, sources[0], {})
      case Throws(message) => Failure(message)
      case Unresolved => Success(Pending)
      case Resolved(entrant) =>
        if entrant in ranking then Failure("duplicate entrant in ranking")
        else RankFrom(ms, results, sources[1..], ranking + [entrant])
  }

  function Advance(b: Blueprint, results: Results): Result<Progress> {
    if results.Keys <= IdSet(b.matches) then RankFrom(b.matches, results, b.rankSources, [])
    else Failure("unknown or extra match result")
  }

  method AdvanceBracket(b: Blueprint, results: Results) returns (r: Result<Progress>)
    ensures r == Advance(b, results)
  {
    if !(results.Keys <= IdSet(b.matches)) {
      return Failure("unknown or extra match result");
    }
    var ranking: seq<Digest> := [];
    var next := 0;
    while next < |b.rankSources|
      invariant 0 <= next <= |b.rankSources|
      invariant RankFrom(b.matches, results, b.rankSources[next..], ranking) == Advance(b, results)
    {
      match Resolve(b.matches, results, b.rankSources[next], {}) {
        case Throws(message) => return Failure(message);
        case Unresolved => return Success(Pending);
        case Resolved(entrant) =>
          if entrant in ranking { return Failure("duplicate entrant in ranking"); }
          ranking := ranking + [entrant];
      }
      assert b.rankSources[next..][1..] == b.rankSources[next + 1..];
      next := next + 1;
    }
    if |ranking| != 5 { return Failure("top-five ranking must contain exactly five entrants"); }
    return Success(Complete(ranking));
  }

  // ---------- well-formed match lists ----------

  predicate Known(ms: seq<Match>, slot: Slot) {
    slot.kind == Entrant || exists m :: m in ms && m.id == slot.id
  }

  predicate ReadyAfter(ms: seq<Match>, m: Match) {
    Known(ms, m.slotA) && Known(ms, m.slotB)
  }

  predicate SameGroup(a: Match, b: Match) {
    a.stage == b.stage && a.round == b.round
  }

  /** Match i depends only on matches before the contiguous stage/round group it is in: on
      matches before every j from which up to i the group does not change. */
  ghost predicate Ready(ms: seq<Match>) {
    forall i, j {:trigger ReadyAfter(ms[..j], ms[i])} ::
      0 <= j <= i < |ms| && (forall k :: j <= k <= i ==> SameGroup(ms[k], ms[i])) ==>
      ReadyAfter(ms[..j], ms[i])
  }

  ghost predicate Ordered(ms: seq<Match>) {
    forall i {:trigger ReadyAfter(ms[..i], ms[i])} :: 0 <= i < |ms| ==> ReadyAfter(ms[..i], ms[i])
  }

  predicate SameKey(a: Match, b: Match) {
    SameGroup(a, b) && a.index == b.index
  }

  ghost predicate DistinctKeys(ms: seq<Match>) {
    forall i, j :: 0 <= i < j < |ms| ==> !SameKey(ms[i], ms[j])
  }

  /** The hash function has no collision among the matches: equal identifiers mean equal
      stage, round and index. */
  ghost predicate SoundIds(ms: seq<Match>) {
    forall i, j :: 0 <= i < |ms| && 0 <= j < |ms| && ms[i].id == ms[j].id ==> SameKey(ms[i], ms[j])
  }

  ghost predicate UniqueIds(ms: seq<Match>) {
    forall i, j :: 0 <= i < j < |ms| ==> ms[i].id != ms[j].id
  }

  // ---------- the meaning of a slot ----------

  /** The entrant a slot stands for, by recursion from the last match back. */
  function Walk(ms: seq<Match>, results: Results, slot: Slot): Option<Digest> {
    if slot.kind == Entrant then Some(slot.id)
    else if ms == [] then None
    else
      var front, m := ms[..|ms| - 1], ms[|ms| - 1];
      if m.id != slot.id then Walk(front, results, slot)
      else if Decisive(results, m.id) then Walk(front, results, Follow(m, results[m.id], slot.kind))
      else None
  }

  function AsResolution(w: Option<Digest>): Resolution {
    if w.Some? then Resolved(w.value) else Unresolved
  }

  lemma FindLastIs(ms: seq<Match>, i: nat)
    requires i < |ms| && UniqueIds(ms)
    ensures FindLast(ms, ms[i].id) == Some(ms[i])
  {
    if i < |ms| - 1 {
      FindLastIs(ms[..|ms| - 1], i);
    }
  }

  lemma KnownBefore(ms: seq<Match>, n: nat, slot: Slot)
    requires 0 < n <= |ms| && Known(ms[..n], slot) && slot.kind != Entrant && ms[n - 1].id != slot.id
    ensures Known(ms[..n - 1], slot)
  {
    assert ms[..n] == ms[..n - 1] + [ms[n - 1]];
  }

  lemma WalkTake(ms: seq<Match>, n: nat, results: Results, slot: Slot)
    requires 0 < n <= |ms| && slot.kind != Entrant
    ensures var m := ms[n - 1];
            Walk(ms[..n], results, slot) ==
              if m.id != slot.id then Walk(ms[..n - 1], results, slot)
              else if Decisive(results, m.id) then Walk(ms[..n - 1], results, Follow(m, results[m.id], slot.kind))
                else None
  {
    assert ms[..n][..n - 1] == ms[..n - 1];
  }

  /** advanceBracket's resolver neither throws nor loops on an ordered list: it walks. */
  lemma {:induction false} ResolveWalks(ms: seq<Match>, n: nat, results: Results, slot: Slot, path: set<Digest>)
    requires Ordered(ms) && UniqueIds(ms) && n <= |ms|
    requires Known(ms[..n], slot) && forall k :: 0 <= k < n ==> ms[k].id !in path
    ensures Resolve(ms, results, slot, path) == AsResolution(Walk(ms[..n], results, slot))
    decreases n
  {
    if slot.kind != Entrant {
      var m := ms[n - 1];
      WalkTake(ms, n, results, slot);
      if m.id == slot.id {
        FindLastIs(ms, n - 1);
        if Decisive(results, m.id) {
          assert ReadyAfter(ms[..n - 1], m);
          ResolveWalks(ms, n - 1, results, Follow(m, results[m.id], slot.kind), path + {m.id});
        }
      } else {
        KnownBefore(ms, n, slot);
        ResolveWalks(ms, n - 1, results, slot, path);
      }
    }
  }

  /** The orchestrator's resolver: the first match of that identifier, no path. It ends
      because the list is ordered. */
  function ResolveSlot(ms: seq<Match>, n: nat, results: Results, slot: Slot): Option<Digest>
    requires Ordered(ms) && UniqueIds(ms) && n <= |ms| && Known(ms[..n], slot)
    decreases n
  {
    if slot.kind == Entrant then Some(slot.id)
    else
      var i := FindFirst(ms, slot.id);
      assert i < n by {
        var m :| m in ms[..n] && m.id == slot.id;
        var k :| 0 <= k < n && ms[..n][k] == m;
        assert i <= k;
      }
      if !Decisive(results, slot.id) then None
      else
        assert ReadyAfter(ms[..i], ms[i]);
        ResolveSlot(ms, i, results, Follow(ms[i], results[slot.id], slot.kind))
  }

  function FindFirst(ms: seq<Match>, id: Digest): (i: nat)
    ensures i <= |ms| && forall k :: 0 <= k < i ==> ms[k].id != id
    ensures i < |ms| ==> ms[i].id == id
  {
    if ms == [] || ms[0].id == id then 0
    else
      assert forall k :: 0 <= k < |ms| - 1 ==> ms[1..][k] == ms[k + 1];
      FindFirst(ms[1..], id) + 1
  }

  lemma ResolveSlotEarlier(ms: seq<Match>, n: nat, results: Results, slot: Slot)
    requires Ordered(ms) && UniqueIds(ms) && 0 < n <= |ms| && Known(ms[..n], slot) && Known(ms[..n - 1], slot)
    ensures ResolveSlot(ms, n, results, slot) == ResolveSlot(ms, n - 1, results, slot)
  {
  }

  lemma {:induction false} ResolveSlotWalks(ms: seq<Match>, n: nat, results: Results, slot: Slot)
    requires Ordered(ms) && UniqueIds(ms) && n <= |ms| && Known(ms[..n], slot)
    ensures ResolveSlot(ms, n, results, slot) == Walk(ms[..n], results, slot)
    decreases n
  {
    if slot.kind != Entrant {
      var m := ms[n - 1];
      WalkTake(ms, n, results, slot);
      var i := FindFirst(ms, slot.id);
      if m.id == slot.id {
        assert i == n - 1;
        if Decisive(results, m.id) {
          assert ReadyAfter(ms[..n - 1], m);
          ResolveSlotWalks(ms, n - 1, results, Follow(m, results[m.id], slot.kind));
        }
      } else {
        KnownBefore(ms, n, slot);
        ResolveSlotEarlier(ms, n, results, slot);
        ResolveSlotWalks(ms, n - 1, results, slot);
      }
    }
  }

  /** Both resolvers agree on every slot. */
  lemma ResolversAgree(ms: seq<Match>, n: nat, results: Results, slot: Slot)
    requires Ordered(ms) && UniqueIds(ms) && n <= |ms| && Known(ms[..n], slot)
    ensures ResolveSlot(ms, n, results, slot) == Walk(ms[..n], results, slot)
    ensures AsResolution(ResolveSlot(ms, n, results, slot)) == Resolve(ms, results, slot, {})
  {
    ResolveWalks(ms, n, results, slot, {});
    ResolveSlotWalks(ms, n, results, slot);
  }

  /** Only the matches before a slot decide what it stands for. */
  lemma {:induction false} WalkPrefix(ms: seq<Match>, n: nat, results: Results, slot: Slot)
    requires UniqueIds(ms) && n <= |ms| && Known(ms[..n], slot)
    ensures Walk(ms, results, slot) == Walk(ms[..n], results, slot)
    decreases |ms|
  {
    if n == |ms| {
      assert ms[..n] == ms;
    } else if slot.kind != Entrant {
      var m :| m in ms[..n] && m.id == slot.id;
      var k :| 0 <= k < n && ms[k] == m;
      var front := ms[..|ms| - 1];
      assert front[..n] == ms[..n];
      WalkPrefix(front, n, results, slot);
    }
  }

  ghost predicate Extends(results: Results, more: Results) {
    forall id :: Decisive(results, id) ==> id in more && more[id] == results[id]
  }

  /** A slot that stands for an entrant keeps standing for it when results are added. */
  lemma {:induction false} WalkMonotone(ms: seq<Match>, results: Results, more: Results, slot: Slot)
    requires Extends(results, more) && Walk(ms, results, slot).Some?
    ensures Walk(ms, more, slot) == Walk(ms, results, slot)
  {
    if slot.kind != Entrant && ms != [] {
      var m := ms[|ms| - 1];
      if m.id != slot.id {
        WalkMonotone(ms[..|ms| - 1], results, more, slot);
      } else if Decisive(results, m.id) {
        WalkMonotone(ms[..|ms| - 1], results, more, Follow(m, results[m.id], slot.kind));
      }
    }
  }

  ghost predicate Decided(ms: seq<Match>, results: Results) {
    forall m :: m in ms ==> Decisive(results, m.id)
  }

  predicate EntrantsIn(ms: seq<Match>, entrants: seq<Digest>) {
    forall m :: m in ms ==> EntrantIn(m.slotA, entrants) && EntrantIn(m.slotB, entrants)
  }

  predicate EntrantIn(slot: Slot, entrants: seq<Digest>) {
    slot.kind == Entrant ==> slot.id in entrants
  }

  lemma Front(ms: seq<Match>, results: Results, entrants: seq<Digest>)
    requires ms != [] && Ordered(ms) && Decided(ms, results) && EntrantsIn(ms, entrants)
    ensures var front, m := ms[..|ms| - 1], ms[|ms| - 1];
            && Ordered(front) && Decided(front, results) && EntrantsIn(front, entrants)
            && ReadyAfter(front, m) && EntrantIn(m.slotA, entrants) && EntrantIn(m.slotB, entrants)
            && Decisive(results, m.id)
  {
    var front := ms[..|ms| - 1];
    assert forall i :: 0 <= i < |front| ==> front[..i] == ms[..i];
    assert ms[|ms| - 1] in ms;
  }

  lemma KnownEarlier(ms: seq<Match>, slot: Slot)
    requires ms != [] && Known(ms, slot) && slot.kind != Entrant && ms[|ms| - 1].id != slot.id
    ensures Known(ms[..|ms| - 1], slot)
  {
    assert ms == ms[..|ms| - 1] + [ms[|ms| - 1]];
  }

  lemma WalkUnfold(ms: seq<Match>, results: Results, slot: Slot)
    requires ms != [] && slot.kind != Entrant && Decisive(results, ms[|ms| - 1].id)
    ensures var m := ms[|ms| - 1];
            Walk(ms, results, slot)
              == Walk(ms[..|ms| - 1], results, if m.id == slot.id then Follow(m, results[m.id], slot.kind) else slot)
  {
  }

  /** Once the matches before it are decided a slot stands for one of the entrants. */
  lemma {:induction false} WalkDecided(ms: seq<Match>, results: Results, slot: Slot, entrants: seq<Digest>)
    requires Ordered(ms) && Decided(ms, results) && Known(ms, slot)
    requires EntrantsIn(ms, entrants) && EntrantIn(slot, entrants)
    ensures Walk(ms, results, slot).Some? && Walk(ms, results, slot).value in entrants
    decreases |ms|
  {
    if slot.kind != Entrant {
      var m := ms[|ms| - 1];
      Front(ms, results, entrants);
      WalkUnfold(ms, results, slot);
      if m.id == slot.id {
        WalkDecided(ms[..|ms| - 1], results, Follow(m, results[m.id], slot.kind), entrants);
      } else {
        KnownEarlier(ms, slot);
        WalkDecided(ms[..|ms| - 1], results, slot, entrants);
      }
    }
  }

  // ---------- results and sides ----------

  /** What the result of m says of its two slots, under a meaning of slots: side A's entrant is the winner and
      side B's the loser of a match that A won, the other way round where B won, and neither is known otherwise. */
  predicate Decides(val: Slot -> Option<Digest>, results: Results, m: Match) {
    var winner, loser := val(Slot(Winner, m.id)), val(Slot(Loser, m.id));
    if m.id in results && results[m.id] == AWin then winner == val(m.slotA) && loser == val(m.slotB)
    else if m.id in results && results[m.id] == BWin then winner == val(m.slotB) && loser == val(m.slotA)
    else winner == None && loser == None
  }

  /** `val` gives every slot the entrant it stands for. */
  ghost predicate Interprets(val: Slot -> Option<Digest>, ms: seq<Match>, results: Results) {
    (forall id :: val(Slot(Entrant, id)) == Some(id)) && forall m :: m in ms ==> Decides(val, results, m)
  }

  lemma FollowDecided(val: Slot -> Option<Digest>, results: Results, m: Match, kind: Kind)
    requires Decides(val, results, m) && kind != Entrant
    ensures val(Slot(kind, m.id))
         == if Decisive(results, m.id) then val(Follow(m, results[m.id], kind)) else None
  {
  }

  /** On an ordered list a slot can stand for one thing only, and both resolvers find it. */
  lemma {:induction false} MeaningUnique(val: Slot -> Option<Digest>, ms: seq<Match>, n: nat, results: Results,
      slot: Slot)
    requires Ordered(ms) && n <= |ms| && Known(ms[..n], slot) && Interprets(val, ms, results)
    ensures Walk(ms[..n], results, slot) == val(slot)
    decreases n
  {
    if slot.kind == Entrant {
      assert slot == Slot(Entrant, slot.id);
    } else {
      var m := ms[n - 1];
      WalkTake(ms, n, results, slot);
      if m.id == slot.id {
        assert slot == Slot(slot.kind, m.id) && m in ms;
        FollowDecided(val, results, m, slot.kind);
        if Decisive(results, m.id) {
          assert ReadyAfter(ms[..n - 1], m);
          MeaningUnique(val, ms, n - 1, results, Follow(m, results[m.id], slot.kind));
        }
      } else {
        KnownBefore(ms, n, slot);
        MeaningUnique(val, ms, n - 1, results, slot);
      }
    }
  }

  /** Whatever gives the slots of an ordered list their entrants by results and sides, the resolver of the
      progression and the one of the orchestrator give the same. */
  lemma ResolversMean(val: Slot -> Option<Digest>, ms: seq<Match>, results: Results, slot: Slot)
    requires Ordered(ms) && UniqueIds(ms) && Known(ms[..|ms|], slot) && Interprets(val, ms, results)
    ensures Resolve(ms, results, slot, {}) == AsResolution(val(slot))
    ensures ResolveSlot(ms, |ms|, results, slot) == val(slot)
  {
    MeaningUnique(val, ms, |ms|, results, slot);
    ResolversAgree(ms, |ms|, results, slot);
  }

  function Walker(ms: seq<Match>, results: Results): Slot -> Option<Digest> {
    (slot: Slot) => Walk(ms, results, slot)
  }

  lemma WalkOwnStep(ms: seq<Match>, results: Results, i: nat, kind: Kind)
    requires Ordered(ms) && UniqueIds(ms) && i < |ms| && kind != Entrant
    ensures Walk(ms, results, Slot(kind, ms[i].id))
         == if Decisive(results, ms[i].id) then Walk(ms, results, Follow(ms[i], results[ms[i].id], kind)) else None
  {
    var m, slot := ms[i], Slot(kind, ms[i].id);
    assert Known(ms[..i + 1], slot) by { assert ms[..i + 1][i] == m; }
    WalkPrefix(ms, i + 1, results, slot);
    WalkTake(ms, i + 1, results, slot);
    if Decisive(results, m.id) {
      assert ReadyAfter(ms[..i], m);
      WalkPrefix(ms, i, results, Follow(m, results[m.id], kind));
    }
  }

  /** And there is such a meaning. */
  lemma WalkInterprets(ms: seq<Match>, results: Results)
    requires Ordered(ms) && UniqueIds(ms)
    ensures Interprets(Walker(ms, results), ms, results)
  {
    forall m | m in ms ensures Decides(Walker(ms, results), results, m) {
      var i :| 0 <= i < |ms| && ms[i] == m;
      WalkOwnStep(ms, results, i, Winner);
      WalkOwnStep(ms, results, i, Loser);
    }
  }

  // ---------- what the resolver does on any list ----------

  /** The slot that a result sends on. */
  predicate Sends(m: Match, result: MatchResult, kind: Kind, next: Slot) {
    match result
    case AWin => next == if kind == Winner then m.slotA else m.slotB
    case BWin => next == if kind == Winner then m.slotB else m.slotA
    case _ => false
  }

  /** Place k holds the last match with this identifier. */
  predicate LastAt(ms: seq<Match>, k: nat, id: Digest) {
    k < |ms| && ms[k].id == id && forall j :: k < j < |ms| ==> ms[j].id != id
  }

  ghost predicate Traced(ms: seq<Match>, results: Results, ref: Slot, next: Slot) {
    && ref.kind != Entrant && ref.id in results
    && exists k: nat :: LastAt(ms, k, ref.id) && Sends(ms[k], results[ref.id], ref.kind, next)
  }

  /** The references from the first to the last, each sent on by the result of the one before. */
  ghost predicate Trace(ms: seq<Match>, results: Results, trace: seq<Slot>) {
    trace != [] && forall i :: 0 <= i < |trace| - 1 ==> Traced(ms, results, trace[i], trace[i + 1])
  }

  /** How a resolution ends, by the last reference of its trace. */
  predicate EndsAs(ms: seq<Match>, results: Results, last: Slot, passed: set<Digest>, r: Resolution) {
    match r
    case Resolved(entrant) => last == Slot(Entrant, entrant)
    case Unresolved => last.kind != Entrant && last.id in IdSet(ms) && last.id !in passed && !Decisive(results, last.id)
    case Throws(_) => last.kind != Entrant && (last.id !in IdSet(ms) || last.id in passed)
  }

  function Passed(trace: seq<Slot>): set<Digest> {
    if trace == [] then {} else Passed(trace[1..]) + {trace[0].id}
  }

  lemma {:induction false} FindLastAt(ms: seq<Match>, id: Digest) returns (k: nat)
    requires id in IdSet(ms)
    ensures LastAt(ms, k, id) && FindLast(ms, id) == Some(ms[k])
  {
    var n := |ms| - 1;
    if ms[n].id == id {
      k := n;
    } else {
      k := FindLastAt(ms[..n], id);
    }
  }

  lemma TraceCons(ms: seq<Match>, results: Results, ref: Slot, rest: seq<Slot>)
    requires Trace(ms, results, rest) && Traced(ms, results, ref, rest[0])
    ensures Trace(ms, results, [ref] + rest)
  {
    var trace := [ref] + rest;
    forall i | 0 <= i < |trace| - 1 ensures Traced(ms, results, trace[i], trace[i + 1]) {
      if i > 0 { assert trace[i] == rest[i - 1] && trace[i + 1] == rest[i]; }
    }
  }

  lemma PassedCons(ref: Slot, rest: seq<Slot>, path: set<Digest>)
    requires rest != []
    ensures var trace := [ref] + rest; var last := |trace| - 1;
            trace[last] == rest[|rest| - 1]
            && path + Passed(trace[..last]) == (path + {ref.id}) + Passed(rest[..|rest| - 1])
  {
    var trace := [ref] + rest;
    assert trace[..|trace| - 1] == [ref] + rest[..|rest| - 1];
    assert ([ref] + rest[..|rest| - 1])[1..] == rest[..|rest| - 1];
  }

  lemma StepOn(ms: seq<Match>, results: Results, ref: Slot, path: set<Digest>) returns (next: Slot)
    requires ref.kind != Entrant && ref.id in IdSet(ms) && ref.id !in path && Decisive(results, ref.id)
    ensures Traced(ms, results, ref, next)
    ensures Resolve(ms, results, ref, path) == Resolve(ms, results, next, path + {ref.id})
  {
    var k := FindLastAt(ms, ref.id);
    next := Follow(ms[k], results[ref.id], ref.kind);
  }

  /** On any list of matches the progression's resolver follows the results from side to side until it comes to an
      entrant, to a match without a decisive result, or to a match that is missing or has been passed before. */
  lemma {:induction false} ResolveTraces(ms: seq<Match>, results: Results, ref: Slot, path: set<Digest>)
      returns (trace: seq<Slot>)
    ensures Trace(ms, results, trace) && trace[0] == ref
    ensures var last := |trace| - 1;
            EndsAs(ms, results, trace[last], path + Passed(trace[..last]), Resolve(ms, results, ref, path))
    decreases |IdSet(ms) - path|
  {
    if ref.kind != Entrant && ref.id in IdSet(ms) && ref.id !in path && Decisive(results, ref.id) {
      var next := StepOn(ms, results, ref, path);
      assert IdSet(ms) - (path + {ref.id}) == (IdSet(ms) - path) - {ref.id};
      var rest := ResolveTraces(ms, results, next, path + {ref.id});
      TraceCons(ms, results, ref, rest);
      trace := [ref] + rest;
      PassedCons(ref, rest, path);
    } else {
      trace := [ref];
      assert path + Passed(trace[..0]) == path;
    }
  }

  /** The sources stand for these entrants, all different. */
  predicate Ranked(ms: seq<Match>, results: Results, sources: seq<Slot>, ranking: seq<Digest>) {
    && |ranking| == |sources| && Distinct(ranking)
    && forall i :: 0 <= i < |sources| ==> Resolve(ms, results, sources[i], {}) == Resolved(ranking[i])
  }

  /** A source that ends the ranking: an open one, or one that is missing or repeated. */
  predicate EndsRanking(r: Resolution, ranking: seq<Digest>, pending: bool) {
    match r
    case Throws(_) => !pending
    case Unresolved => pending
    case Resolved(entrant) => !pending && entrant in ranking
  }

  /** The sources before k are ranked, and source k ends the ranking in this way. */
  ghost predicate StopsAt(ms: seq<Match>, results: Results, sources: seq<Slot>, k: nat, pending: bool) {
    && k < |sources|
    && exists ranking {:trigger Ranked(ms, results, sources[..k], ranking)} ::
         && Ranked(ms, results, sources[..k], ranking)
         && EndsRanking(Resolve(ms, results, sources[k], {}), ranking, pending)
  }

  /** What a progression says about its sources. */
  ghost predicate Accounts(ms: seq<Match>, results: Results, sources: seq<Slot>, r: Result<Progress>) {
    match r
    case Success(Complete(ranking)) => |sources| == 5 && Ranked(ms, results, sources, ranking)
    case Success(Pending) => exists k: nat :: StopsAt(ms, results, sources, k, true)
    case Failure(_) =>
      || (|sources| != 5 && exists ranking :: Ranked(ms, results, sources, ranking))
      || exists k: nat :: StopsAt(ms, results, sources, k, false)
  }

  lemma {:induction false} RankFromAccounts(ms: seq<Match>, results: Results, sources: seq<Slot>, k: nat,
      ranking: seq<Digest>)
    requires k <= |sources| && Ranked(ms, results, sources[..k], ranking)
    ensures Accounts(ms, results, sources, RankFrom(ms, results, sources[k..], ranking))
    decreases |sources| - k
  {
    if k == |sources| {
      assert sources[..k] == sources;
    } else {
      var r := Resolve(ms, results, sources[k], {});
      if r.Resolved? && r.entrant !in ranking {
        assert sources[..k + 1] == sources[..k] + [sources[k]];
        RankFromAccounts(ms, results, sources, k + 1, ranking + [r.entrant]);
        assert sources[k..][1..] == sources[k + 1..];
      } else {
        assert StopsAt(ms, results, sources, k, r.Unresolved?);
      }
    }
  }

  /** On any blueprint: unknown results are refused; COMPLETE ranks all five sources, by different entrants; PENDING
      stops at a first source that is open; and a throw means a repeated entrant, a source that cannot be resolved,
      or another number of sources than five. */
  lemma AdvanceAccounts(b: Blueprint, results: Results)
    ensures if results.Keys <= IdSet(b.matches) then Accounts(b.matches, results, b.rankSources, Advance(b, results))
            else Advance(b, results).Failure?
  {
    assert b.rankSources[0..] == b.rankSources;
    RankFromAccounts(b.matches, results, b.rankSources, 0, []);
  }
}
