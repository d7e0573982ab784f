// The theorems about a built bracket: single elimination, five different finishers, no throw of
// the progression reachable, and a ranking that results can only complete, never change.

module Ranking {
  import opened Wrappers
  import opened Canonical
  import opened Bracket
  import opened Progression
  import opened Elimination

  /** A bracket of a legal roster whose match identifiers do not collide. */
  ghost predicate Legal(env: Env, entrants: seq<Digest>) {
    && Permutes(env) && |entrants| >= 8 && Distinct(entrants)
    && SoundIds(BlueprintOf(env, entrants).matches)
  }

  ghost predicate Sorted(ms: seq<Match>) {
    Ready(ms) && Ordered(ms) && UniqueIds(ms)
  }

  lemma WellFormedIsSorted(ms: seq<Match>)
    requires WellFormed(ms) && SoundIds(ms)
    ensures Sorted(ms)
  {
    forall i | 0 <= i < |ms|
      ensures ReadyAfter(ms[..i], ms[i])
    {
      assert forall k :: i <= k <= i ==> SameGroup(ms[k], ms[i]);
    }
  }

  // ---------- the meaning of slots under decided results ----------

  function Meaning(ms: seq<Match>, results: Results): Slot -> Digest {
    (slot: Slot) => var w := Walk(ms, results, slot); if w.Some? then w.value else slot.id
  }

  lemma WalkOwn(ms: seq<Match>, results: Results, i: nat, kind: Kind)
    requires Ordered(ms) && UniqueIds(ms) && i < |ms| && Decisive(results, ms[i].id) && kind != Entrant
    ensures Walk(ms, results, Slot(kind, ms[i].id)) == Walk(ms, results, Follow(ms[i], results[ms[i].id], kind))
  {
    var m, slot := ms[i], Slot(kind, ms[i].id);
    var next := Follow(m, results[m.id], kind);
    assert Known(ms[..i + 1], slot) by { assert ms[..i + 1][i] == m; }
    assert Known(ms[..i], next) by { assert ReadyAfter(ms[..i], m); }
    WalkPrefix(ms, i + 1, results, slot);
    WalkTake(ms, i + 1, results, slot);
    WalkPrefix(ms, i, results, next);
  }

  lemma MatchSplits(ms: seq<Match>, results: Results, i: nat)
    requires Ordered(ms) && UniqueIds(ms) && Decided(ms, results) && i < |ms|
    ensures Splits(Meaning(ms, results), ms[i])
  {
    var m := ms[i];
    assert m in ms && Decisive(results, m.id);
    WalkOwn(ms, results, i, Winner);
    WalkOwn(ms, results, i, Loser);
    assert ReadyAfter(ms[..i], m);
    SidesResolve(ms, results, i);
  }

  lemma SidesResolve(ms: seq<Match>, results: Results, i: nat)
    requires Ordered(ms) && UniqueIds(ms) && Decided(ms, results) && i < |ms|
    ensures Walk(ms, results, ms[i].slotA).Some? && Walk(ms, results, ms[i].slotB).Some?
  {
    var m := ms[i];
    assert ReadyAfter(ms[..i], m);
    assert Known(ms, m.slotA) && Known(ms, m.slotB);
    WalkTotal(ms, results, m.slotA);
    WalkTotal(ms, results, m.slotB);
  }

  lemma {:induction false} WalkTotal(ms: seq<Match>, results: Results, slot: Slot)
    requires forall i :: 0 <= i < |ms| ==> ReadyAfter(ms[..i], ms[i]) && Decisive(results, ms[i].id)
    requires Known(ms, slot)
    ensures Walk(ms, results, slot).Some?
    decreases |ms|
  {
    if slot.kind != Entrant {
      var front, m := ms[..|ms| - 1], ms[|ms| - 1];
      assert forall i :: 0 <= i < |front| ==> front[..i] == ms[..i];
      if m.id == slot.id {
        assert ReadyAfter(front, m);
        WalkTotal(front, results, Follow(m, results[m.id], slot.kind));
      } else {
        assert forall x :: x in ms ==> x in front || x == m;
        WalkTotal(front, results, slot);
      }
    }
  }

  lemma AllSplit(ms: seq<Match>, results: Results)
    requires Ordered(ms) && UniqueIds(ms) && Decided(ms, results)
    ensures forall m :: m in ms ==> Splits(Meaning(ms, results), m)
  {
    forall m | m in ms
      ensures Splits(Meaning(ms, results), m)
    {
      var i :| 0 <= i < |ms| && ms[i] == m;
      MatchSplits(ms, results, i);
    }
  }

  // ---------- counting finishers ----------

  lemma {:induction false} CandidatesCount(val: Slot -> Digest, env: Env, rounds: seq<Round>, k: nat, x: Digest)
    requires Permutes(env)
    ensures Count(val, Candidates(env, rounds, k), x) == Count(val, Losers(Flatten(rounds)), x)
    decreases |rounds|
  {
    if rounds != [] {
      var last, front := rounds[|rounds| - 1].matches, rounds[..|rounds| - 1];
      var arranged := Arrange(env, RollingPlacement(k), Losers(last));
      CandidatesCount(val, env, front, k + 1, x);
      CountPermutation(val, arranged, Losers(last), x);
      CountConcat(val, arranged, Candidates(env, front, k + 1), x);
      LosersConcat(Flatten(front), last);
      CountConcat(val, Losers(Flatten(front)), Losers(last), x);
    }
  }

  lemma Count3(val: Slot -> Digest, s: seq<Slot>, x: Digest)
    requires |s| == 3
    ensures Count(val, s, x) == Is(val(s[0]), x) + Is(val(s[1]), x) + Is(val(s[2]), x)
  {
    assert s == [] + [s[0]] + [s[1]] + [s[2]];
    CountSnoc(val, [], s[0], x);
    CountSnoc(val, [] + [s[0]], s[1], x);
    CountSnoc(val, [] + [s[0]] + [s[1]], s[2], x);
  }

  lemma Count5(val: Slot -> Digest, s: seq<Slot>, x: Digest)
    requires |s| == 5
    ensures Count(val, s, x) == Is(val(s[0]), x) + Is(val(s[1]), x) + Is(val(s[2]), x) + Is(val(s[3]), x)
      + Is(val(s[4]), x)
  {
    Count3(val, s[..3], x);
    CountSnoc(val, s[..3], s[3], x);
    CountSnoc(val, s[..3] + [s[3]], s[4], x);
    assert s == s[..3] + [s[3]] + [s[4]];
  }

  lemma CountLosersSnoc(val: Slot -> Digest, ms: seq<Match>, m: Match, x: Digest)
    ensures Count(val, Losers(ms + [m]), x) == Count(val, Losers(ms), x) + Is(val(Loss(m)), x)
  {
    SlotsSnoc(Loser, ms, m);
    CountSnoc(val, Losers(ms), Loss(m), x);
  }

  /** Revision 2: no entrant takes more ranks than the roster has copies of it. */
  lemma RollingRanksCount(val: Slot -> Digest, env: Env, entrants: seq<Digest>, x: Digest)
    requires Permutes(env) && |entrants| >= 8
    requires forall m :: m in RollingBlueprint(env, entrants).matches ==> Splits(val, m)
    ensures Count(val, RollingBlueprint(env, entrants).rankSources, x) <= Count(val, Slots(Entrant, entrants), x)
  {
    var sources := RollingSources(env, entrants);
    RoundsShape(env, true, sources);
    var rounds := Rounds(env, true, sources, 1);
    var k := |rounds|;
    RollingKnockout(val, env, entrants, x);
    RollingTopFive(val, env, rounds, x);
    CountPermutation(val, sources, Slots(Entrant, entrants), x);
  }

  lemma RollingKnockout(val: Slot -> Digest, env: Env, entrants: seq<Digest>, x: Digest)
    requires Permutes(env) && |entrants| >= 8
    requires forall m :: m in RollingBlueprint(env, entrants).matches ==> Splits(val, m)
    ensures var rounds := Rounds(env, true, RollingSources(env, entrants), 1); var k := |rounds|;
            && k >= 1 && |rounds[k - 1].matches| == 1
            && (forall m :: m in Flatten(rounds) ==> m in RollingBlueprint(env, entrants).matches)
            && Is(val(Slot(Winner, rounds[k - 1].matches[0].id)), x) + Count(val, Losers(Flatten(rounds)), x)
               == Count(val, RollingSources(env, entrants), x)
  {
    var sources := RollingSources(env, entrants);
    RoundsShape(env, true, sources);
    var rounds := Rounds(env, true, sources, 1);
    var k := |rounds|;
    assert Flatten(rounds) == Flatten(rounds[..k - 1]) + [rounds[k - 1].matches[0]];
    ChampionWinsFinal(env, true, sources, 1);
    RoundsConserve(val, env, true, sources, 1, x);
  }

  lemma RollingTopFive(val: Slot -> Digest, env: Env, rounds: seq<Round>, x: Digest)
    requires Permutes(env)
    requires var k := |rounds|;
             k >= 3 && |rounds[k - 1].matches| == 1 && |rounds[k - 2].matches| + |rounds[k - 3].matches| >= 3
    requires var c := Placement(env, rounds); Splits(val, FifthMatch(env, c)) && Splits(val, ThirdMatch(env, c))
    ensures var c := Placement(env, rounds); var final := rounds[|rounds| - 1].matches[0];
            Count(val, RollingRanks(final, ThirdMatch(env, c), FifthMatch(env, c)), x)
            <= Is(val(Slot(Winner, final.id)), x) + Count(val, Losers(Flatten(rounds)), x)
  {
    var k := |rounds|;
    var front, final := Flatten(rounds[..k - 1]), rounds[k - 1].matches[0];
    var c, all := Placement(env, rounds), Candidates(env, rounds[..k - 1], 0);
    assert Flatten(rounds) == front + [final];
    CountLosersSnoc(val, front, final, x);
    CandidatesCount(val, env, rounds[..k - 1], 0, x);
    assert all == c + all[3..];
    CountConcat(val, c, all[3..], x);
    Count3(val, c, x);
    Count5(val, RollingRanks(final, ThirdMatch(env, c), FifthMatch(env, c)), x);
  }

  lemma PowerRanksCount(val: Slot -> Digest, env: Env, entrants: seq<Digest>, x: Digest)
    requires Permutes(env) && |entrants| >= 8
    requires forall m :: m in PowerBlueprint(env, entrants).matches ==> Splits(val, m)
    ensures Count(val, PowerBlueprint(env, entrants).rankSources, x) <= Count(val, Slots(Entrant, entrants), x)
  {
    PowerShape(env, MainSources(env, entrants));
    var rounds := Rounds(env, false, MainSources(env, entrants), 1);
    var k := |rounds|;
    PowerKnockout(val, env, entrants, x);
    var p := Placements(env, rounds[k - 2].matches, rounds[k - 3].matches);
    var ms := PowerBlueprint(env, entrants).matches;
    assert ms == Prelims(env, entrants) + Flatten(rounds) + p;
    assert p[0] in ms && p[1] in ms && p[2] in ms && p[3] in ms;
    PowerTopFive(val, env, rounds, x);
  }

  /** The preliminary losers and the main bracket's slots are the entrants, each once. */
  lemma PowerEntrants(val: Slot -> Digest, env: Env, entrants: seq<Digest>, x: Digest)
    requires Permutes(env) && |entrants| >= 8
    requires forall m :: m in Prelims(env, entrants) ==> Splits(val, m)
    ensures Count(val, MainSources(env, entrants), x) + Count(val, Losers(Prelims(env, entrants)), x)
      == Count(val, Slots(Entrant, entrants), x)
  {
    var ordered, prelims, sources := RollingSources(env, entrants), Prelims(env, entrants), MainSources(env, entrants);
    var n := 2 * (|entrants| - Base(|entrants|));
    PairingsConserve(val, env, Preliminary, 0, ordered[..n], x);
    CountPermutation(val, sources, Winners(prelims) + ordered[n..], x);
    CountConcat(val, Winners(prelims), ordered[n..], x);
    CountConcat(val, ordered[..n], ordered[n..], x);
    assert ordered == ordered[..n] + ordered[n..];
    CountPermutation(val, ordered, Slots(Entrant, entrants), x);
  }

  lemma PowerKnockout(val: Slot -> Digest, env: Env, entrants: seq<Digest>, x: Digest)
    requires Permutes(env) && |entrants| >= 8
    requires forall m :: m in PowerBlueprint(env, entrants).matches ==> Splits(val, m)
    ensures var rounds := Rounds(env, false, MainSources(env, entrants), 1); var k := |rounds|;
            && k >= 1 && |rounds[k - 1].matches| == 1
            && Is(val(Slot(Winner, rounds[k - 1].matches[0].id)), x) + Count(val, Losers(Flatten(rounds)), x)
               + Count(val, Losers(Prelims(env, entrants)), x) == Count(val, Slots(Entrant, entrants), x)
  {
    var sources := MainSources(env, entrants);
    PowerShape(env, sources);
    ChampionWinsFinal(env, false, sources, 1);
    RoundsConserve(val, env, false, sources, 1, x);
    PowerEntrants(val, env, entrants, x);
  }

  lemma PowerTopFive(val: Slot -> Digest, env: Env, rounds: seq<Round>, x: Digest)
    requires PowerShaped(rounds)
    requires forall m :: m in Placements(env, rounds[|rounds| - 2].matches, rounds[|rounds| - 3].matches) ==>
      Splits(val, m)
    ensures var k := |rounds|; var final := rounds[k - 1].matches[0];
            Count(val, PowerRanks(final, Placements(env, rounds[k - 2].matches, rounds[k - 3].matches)), x)
            <= Is(val(Slot(Winner, final.id)), x) + Count(val, Losers(Flatten(rounds)), x)
  {
    var k := |rounds|;
    var s, q, final := rounds[k - 2].matches, rounds[k - 3].matches, rounds[k - 1].matches[0];
    var p := Placements(env, s, q);
    LastThreeLosers(val, rounds, x);
    Count5(val, PowerRanks(final, p), x);
    assert p[0] in p && p[1] in p && p[2] in p && p[3] in p;
    PlayoffWinner(val, p, s, q, x);
  }

  lemma PlayoffWinner(val: Slot -> Digest, p: seq<Match>, s: seq<Match>, q: seq<Match>, x: Digest)
    requires |p| == 4 && |s| == 2 && |q| == 4
    requires Splits(val, p[0]) && Splits(val, p[1]) && Splits(val, p[2]) && Splits(val, p[3])
    requires p[0].slotA == Loss(s[0]) && p[0].slotB == Loss(s[1])
    requires p[1].slotA == Loss(q[0]) && p[1].slotB == Loss(q[1]) && p[2].slotA == Loss(q[2])
      && p[2].slotB == Loss(q[3])
    requires p[3].slotA == Slot(Winner, p[1].id) && p[3].slotB == Slot(Winner, p[2].id)
    ensures Is(val(Slot(Winner, p[0].id)), x) + Is(val(Slot(Loser, p[0].id)), x) == Is(val(Loss(s[0])), x)
      + Is(val(Loss(s[1])), x)
    ensures Is(val(Slot(Winner, p[3].id)), x)
            <= Is(val(Loss(q[0])), x) + Is(val(Loss(q[1])), x) + Is(val(Loss(q[2])), x) + Is(val(Loss(q[3])), x)
  {
  }

  lemma LastThreeLosers(val: Slot -> Digest, rounds: seq<Round>, x: Digest)
    requires PowerShaped(rounds)
    ensures var k := |rounds|; var s, q, final := rounds[k - 2].matches, rounds[k - 3].matches,
      rounds[k - 1].matches[0];
            Count(val, Losers(Flatten(rounds)), x)
            >= Is(val(Loss(q[0])), x) + Is(val(Loss(q[1])), x) + Is(val(Loss(q[2])), x) + Is(val(Loss(q[3])), x)
               + Is(val(Loss(s[0])), x) + Is(val(Loss(s[1])), x) + Is(val(Loss(final)), x)
  {
    var k := |rounds|;
    var s, q, final := rounds[k - 2].matches, rounds[k - 3].matches, rounds[k - 1].matches[0];
    var base := Flatten(rounds[..k - 3]);
    FlattenLastThree(rounds);
    CountLosersSnoc(val, base + q + s, final, x);
    CountLosersPair(val, base + q, s, x);
    assert base + q == base + q[..2] + q[2..];
    CountLosersPair(val, base + q[..2], q[2..], x);
    CountLosersPair(val, base, q[..2], x);
  }

  lemma FlattenLastThree(rounds: seq<Round>)
    requires PowerShaped(rounds)
    ensures var k := |rounds|;
            Flatten(rounds) == Flatten(rounds[..k - 3]) + rounds[k - 3].matches + rounds[k - 2].matches
              + [rounds[k - 1].matches[0]]
  {
    var k := |rounds|;
    LastThreeSplit(rounds);
    FlattenThree(rounds[..k - 3], rounds[k - 3], rounds[k - 2], rounds[k - 1]);
    assert rounds[k - 1].matches == [rounds[k - 1].matches[0]];
  }

  lemma LastThreeSplit<T>(s: seq<T>)
    requires |s| >= 3
    ensures var k := |s|; s == s[..k - 3] + [s[k - 3]] + [s[k - 2]] + [s[k - 1]]
  {
  }

  lemma FlattenThree(front: seq<Round>, x: Round, y: Round, z: Round)
    ensures Flatten(front + [x] + [y] + [z]) == Flatten(front) + x.matches + y.matches + z.matches
  {
    FlattenSnoc(front, x);
    FlattenSnoc(front + [x], y);
    FlattenSnoc(front + [x] + [y], z);
  }

  lemma CountLosersPair(val: Slot -> Digest, base: seq<Match>, s: seq<Match>, x: Digest)
    requires |s| == 2
    ensures Count(val, Losers(base + s), x) == Count(val, Losers(base), x) + Is(val(Loss(s[0])), x)
      + Is(val(Loss(s[1])), x)
  {
    assert base + s == base + [s[0]] + [s[1]];
    CountLosersSnoc(val, base, s[0], x);
    CountLosersSnoc(val, base + [s[0]], s[1], x);
  }

  // ---------- single elimination ----------

  function KnockoutMatches(env: Env, entrants: seq<Digest>): seq<Match>
    requires Permutes(env) && |entrants| >= 8
  {
    if env.revision >= 2 then Flatten(Rounds(env, true, RollingSources(env, entrants), 1))
    else Prelims(env, entrants) + Flatten(Rounds(env, false, MainSources(env, entrants), 1))
  }

  lemma {:induction false} CountPlain(val: Slot -> Digest, ids: seq<Digest>, x: Digest)
    requires Distinct(ids) && forall id :: val(Slot(Entrant, id)) == id
    ensures Count(val, Slots(Entrant, ids), x) == if x in ids then 1 else 0
  {
    if ids != [] {
      var front := ids[..|ids| - 1];
      assert Slots(Entrant, ids)[..|ids| - 1] == Slots(Entrant, front);
      CountPlain(val, front, x);
      assert x in ids <==> x in front || x == ids[|ids| - 1];
    }
  }

  lemma Playing(env: Env, entrants: seq<Digest>, results: Results)
    requires Legal(env, entrants) && Decided(BlueprintOf(env, entrants).matches, results)
    ensures var b := BlueprintOf(env, entrants);
            && Sorted(b.matches) && Playable(b)
            && forall m :: m in b.matches ==> Splits(Meaning(b.matches, results), m)
  {
    BracketPlayable(env, entrants);
    var b := BlueprintOf(env, entrants);
    WellFormedIsSorted(b.matches);
    AllSplit(b.matches, results);
  }

  lemma RollingSingle(val: Slot -> Digest, env: Env, entrants: seq<Digest>, x: Digest)
    requires Permutes(env) && |entrants| >= 8 && Count(val, Slots(Entrant, entrants), x) == 1
    requires forall m :: m in RollingBlueprint(env, entrants).matches ==> Splits(val, m)
    ensures Count(val, Losers(Flatten(Rounds(env, true, RollingSources(env, entrants), 1))), x)
            == if val(RollingBlueprint(env, entrants).rankSources[0]) == x then 0 else 1
  {
    RollingKnockout(val, env, entrants, x);
    CountPermutation(val, RollingSources(env, entrants), Slots(Entrant, entrants), x);
  }

  lemma PowerSingle(val: Slot -> Digest, env: Env, entrants: seq<Digest>, x: Digest)
    requires Permutes(env) && |entrants| >= 8 && Count(val, Slots(Entrant, entrants), x) == 1
    requires forall m :: m in PowerBlueprint(env, entrants).matches ==> Splits(val, m)
    ensures Count(val, Losers(Prelims(env, entrants) + Flatten(Rounds(env, false, MainSources(env, entrants), 1))), x)
            == if val(PowerBlueprint(env, entrants).rankSources[0]) == x then 0 else 1
  {
    PowerKnockout(val, env, entrants, x);
    var main := Flatten(Rounds(env, false, MainSources(env, entrants), 1));
    LosersConcat(Prelims(env, entrants), main);
    CountConcat(val, Losers(Prelims(env, entrants)), Losers(main), x);
  }

  // ---------- the ranking ----------

  function Values(val: Slot -> Digest, slots: seq<Slot>): (r: seq<Digest>)
    ensures |r| == |slots|
    ensures forall i :: 0 <= i < |slots| ==> r[i] == val(slots[i])
  {
    seq(|slots|, i requires 0 <= i < |slots| => val(slots[i]))
  }

  lemma {:induction false} CountAt(val: Slot -> Digest, slots: seq<Slot>, i: nat)
    requires i < |slots|
    ensures Count(val, slots, val(slots[i])) >= 1
  {
    if i < |slots| - 1 { CountAt(val, slots[..|slots| - 1], i); }
  }

  lemma CountTake(val: Slot -> Digest, slots: seq<Slot>, k: nat, x: Digest)
    requires k <= |slots|
    ensures Count(val, slots[..k], x) <= Count(val, slots, x)
  {
    CountConcat(val, slots[..k], slots[k..], x);
    assert slots == slots[..k] + slots[k..];
  }

  lemma CountPair(val: Slot -> Digest, slots: seq<Slot>, i: nat, j: nat, x: Digest)
    requires i < j < |slots| && x == val(slots[j])
    ensures Count(val, slots, x) >= Is(val(slots[i]), x) + 1
  {
    var front := slots[..j];
    assert front[i] == slots[i];
    CountAt(val, front, i);
    CountSnoc(val, front, slots[j], x);
    assert slots[..j + 1] == front + [slots[j]];
    CountTake(val, slots, j + 1, x);
  }

  lemma DistinctByCount(val: Slot -> Digest, slots: seq<Slot>)
    requires forall x :: Count(val, slots, x) <= 1
    ensures Distinct(Values(val, slots))
  {
    var r := Values(val, slots);
    forall i, j | 0 <= i < j < |r|
      ensures r[i] != r[j]
    {
      CountPair(val, slots, i, j, val(slots[j]));
    }
  }

  /** Under decided results the five rank sources stand for five different entrants. */
  lemma FiveFinishers(env: Env, entrants: seq<Digest>, results: Results)
    requires Legal(env, entrants) && Decided(BlueprintOf(env, entrants).matches, results)
    ensures var b := BlueprintOf(env, entrants); var r := Values(Meaning(b.matches, results), b.rankSources);
            |r| == 5 && Distinct(r) && forall i :: 0 <= i < 5 ==> r[i] in entrants
  {
    Playing(env, entrants, results);
    var b := BlueprintOf(env, entrants);
    var val := Meaning(b.matches, results);
    forall x
      ensures Count(val, b.rankSources, x) <= if x in entrants then 1 else 0
    {
      CountPlain(val, entrants, x);
      if env.revision >= 2 { RollingRanksCount(val, env, entrants, x); } else {
        PowerRanksCount(val, env, entrants, x); }
    }
    DistinctByCount(val, b.rankSources);
    forall i | 0 <= i < 5
      ensures val(b.rankSources[i]) in entrants
    {
      CountAt(val, b.rankSources, i);
    }
  }

  /** A total assignment that agrees with the decisive results there are. */
  function Filled(ms: seq<Match>, results: Results): (total: Results)
    ensures Decided(ms, total)
    ensures total.Keys == IdSet(ms)
  {
    map id | id in IdSet(ms) :: if Decisive(results, id) then results[id] else AWin
  }

  lemma NextEntrant(val: Slot -> Digest, sources: seq<Slot>, ranking: seq<Digest>, x: Digest)
    requires sources != [] && val(sources[0]) == x && Distinct(ranking + Values(val, sources))
    ensures x !in ranking
    ensures ranking + Values(val, sources) == (ranking + [x]) + Values(val, sources[1..])
  {
    var all := ranking + Values(val, sources);
    assert all[|ranking|] == x;
    assert forall i :: 0 <= i < |ranking| ==> all[i] == ranking[i];
  }

  lemma {:induction false} RankingSteps(ms: seq<Match>, results: Results, total: Results, sources: seq<Slot>,
      ranking: seq<Digest>)
    requires Ordered(ms) && UniqueIds(ms) && AllKnown(ms, sources)
    requires Extends(results, total)
    requires var all := ranking + Values(Meaning(ms, total), sources); |all| == 5 && Distinct(all)
    ensures var r := RankFrom(ms, results, sources, ranking);
            && r.Success? && (r.value.Complete? ==> r.value.ranking == ranking + Values(Meaning(ms, total), sources))
    ensures Decided(ms, results) ==> RankFrom(ms, results, sources, ranking).value.Complete?
    decreases |sources|
  {
    if sources != [] {
      assert ms[..|ms|] == ms;
      ResolveWalks(ms, |ms|, results, sources[0], {});
      if Decided(ms, results) { WalkTotal(ms, results, sources[0]); }
      if Walk(ms, results, sources[0]).Some? {
        WalkMonotone(ms, results, total, sources[0]);
        var x := Walk(ms, results, sources[0]).value;
        NextEntrant(Meaning(ms, total), sources, ranking, x);
        RankingSteps(ms, results, total, sources[1..], ranking + [x]);
      }
    } else {
      assert ranking + Values(Meaning(ms, total), sources) == ranking;
    }
  }

  /** advanceBracket on a built bracket never throws for results of its own matches, whatever is
      still open, tied or to be retried; a ranking it completes is five different entrants; and
      it completes one when every match is decided. */
  lemma AdvanceIsSafe(env: Env, entrants: seq<Digest>, results: Results)
    requires Legal(env, entrants) && results.Keys <= IdSet(BlueprintOf(env, entrants).matches)
    ensures var r := Advance(BlueprintOf(env, entrants), results);
            && r.Success?
            && (r.value.Complete? ==> |r.value.ranking| == 5 && Distinct(r.value.ranking)
                                      && forall x :: x in r.value.ranking ==> x in entrants)
            && (Decided(BlueprintOf(env, entrants).matches, results) ==> r.value.Complete?)
  {
    var b := BlueprintOf(env, entrants);
    var total := Filled(b.matches, results);
    Playing(env, entrants, total);
    FiveFinishers(env, entrants, total);
    var values := Values(Meaning(b.matches, total), b.rankSources);
    assert [] + values == values;
    RankingSteps(b.matches, results, total, b.rankSources, []);
  }

  /** A complete ranking does not change when results are added. */
  lemma RankingIsFinal(env: Env, entrants: seq<Digest>, results: Results, more: Results)
    requires Legal(env, entrants)
    requires Extends(results, more) && more.Keys <= IdSet(BlueprintOf(env, entrants).matches)
    requires var r := Advance(BlueprintOf(env, entrants), results); r.Success? && r.value.Complete?
    ensures Advance(BlueprintOf(env, entrants), more) == Advance(BlueprintOf(env, entrants), results)
  {
    var b := BlueprintOf(env, entrants);
    BracketPlayable(env, entrants);
    WellFormedIsSorted(b.matches);
    RankingMonotone(b.matches, results, more, b.rankSources, []);
  }

  lemma {:induction false} RankingMonotone(ms: seq<Match>, results: Results, more: Results, sources: seq<Slot>,
      ranking: seq<Digest>)
    requires Ordered(ms) && UniqueIds(ms) && AllKnown(ms, sources) && Extends(results, more)
    requires var r := RankFrom(ms, results, sources, ranking); r.Success? && r.value.Complete?
    ensures RankFrom(ms, more, sources, ranking) == RankFrom(ms, results, sources, ranking)
    decreases |sources|
  {
    if sources != [] {
      assert ms[..|ms|] == ms;
      ResolveWalks(ms, |ms|, results, sources[0], {});
      ResolveWalks(ms, |ms|, more, sources[0], {});
      WalkMonotone(ms, results, more, sources[0]);
      RankingMonotone(ms, results, more, sources[1..], ranking + [Walk(ms, results, sources[0]).value]);
    }
  }

  // ---------- how many matches, rounds and byes ----------

  /** How many slots enter each round. */
  function Entering(n: nat): seq<nat> {
    if n <= 1 then [] else [n] + Entering((n + 1) / 2)
  }

  function OddCount(s: seq<nat>): nat {
    if s == [] then 0 else s[0] % 2 + OddCount(s[1..])
  }

  lemma {:induction false} ByeExactlyWhenOdd(env: Env, slots: seq<Slot>, round: nat)
    requires Permutes(env)
    ensures ByesFit(Rounds(env, true, slots, round), Entering(|slots|))
    decreases |slots|
  {
    if |slots| > 1 {
      var r := PlayRound(env, true, slots, round);
      ByeExactlyWhenOdd(env, Survivors(r), round + 1);
      assert |Survivors(r)| == (|slots| + 1) / 2;
      EnteringCons(r, Rounds(env, true, Survivors(r), round + 1), |slots|);
    }
  }

  ghost predicate ByesFit(rounds: seq<Round>, entering: seq<nat>) {
    |rounds| == |entering| && forall i :: 0 <= i < |rounds| ==> |rounds[i].bye| == entering[i] % 2
  }

  lemma EnteringCons(r: Round, rest: seq<Round>, n: nat)
    requires n > 1 && ByesFit(rest, Entering((n + 1) / 2)) && |r.bye| == n % 2
    ensures ByesFit([r] + rest, Entering(n))
  {
  }

  lemma {:induction false} ByesCounted(rounds: seq<Round>, entering: seq<nat>)
    requires ByesFit(rounds, entering)
    ensures |Byes(rounds)| == OddCount(entering)
  {
    if rounds != [] {
      var n := |rounds| - 1;
      ByesCounted(rounds[..n], entering[..n]);
      OddCountSnoc(entering[..n], entering[n]);
      assert entering == entering[..n] + [entering[n]];
    }
  }

  lemma {:induction false} OddCountSnoc(s: seq<nat>, x: nat)
    ensures OddCount(s + [x]) == OddCount(s) + x % 2
  {
    if s == [] {
      assert [x][1..] == [];
      assert s + [x] == [x];
    } else {
      OddCountSnoc(s[1..], x);
      assert (s + [x])[1..] == s[1..] + [x];
    }
  }

  /** Revision 2 for n entrants: n - 1 main matches and n + 1 in all; ceil(log2 n) rounds, of
      the sizes the tournament page computes; one bye in each round an odd number enters. */
  lemma RollingCounts(env: Env, entrants: seq<Digest>)
    requires Permutes(env) && |entrants| >= 8
    ensures var n := |entrants|; var b := RollingBlueprint(env, entrants);
            var rounds := Rounds(env, true, RollingSources(env, entrants), 1);
            && |Flatten(rounds)| == n - 1 && |b.matches| == n + 1
            && Sizes(rounds) == PageRoundSizes(n)
            && Power(|rounds| - 1) < n <= Power(|rounds|)
            && ByesFit(rounds, Entering(n))
            && b.byeCount == |b.byes| == OddCount(Entering(n))
  {
    var sources := RollingSources(env, entrants);
    var rounds := Rounds(env, true, sources, 1);
    MainMatchCount(env, true, sources, 1);
    SizesMatchPage(env, true, sources, 1);
    RoundsShape(env, true, sources);
    RoundCount(|entrants|);
    ByeExactlyWhenOdd(env, sources, 1);
    ByesCounted(rounds, Entering(|entrants|));
  }

  /** Revision 1 for n entrants: a main draw of the largest power of two p <= n, n - p
      preliminaries, 2p - n byes, log2 p main rounds, n + 3 matches in all. */
  lemma PowerCounts(env: Env, entrants: seq<Digest>)
    requires Permutes(env) && |entrants| >= 8
    ensures var n := |entrants|; var p := Base(n); var b := PowerBlueprint(env, entrants);
            && PowerOfTwo(p) && p <= n < 2 * p
            && |MainSources(env, entrants)| == p && |Prelims(env, entrants)| == b.preliminaryMatchCount == n - p
            && b.byeCount == 2 * p - n && 2 * b.preliminaryMatchCount + b.byeCount == n
            && |Flatten(Rounds(env, false, MainSources(env, entrants), 1))| == p - 1
            && |b.matches| == n + 3
            && Power(|Rounds(env, false, MainSources(env, entrants), 1)|) == p
  {
    var sources := MainSources(env, entrants);
    MainMatchCount(env, false, sources, 1);
    PowerShape(env, sources);
    MainRounds(env, sources);
  }

  lemma MainRounds(env: Env, slots: seq<Slot>)
    requires Permutes(env) && |slots| >= 1 && PowerOfTwo(|slots|)
    ensures Power(|Rounds(env, false, slots, 1)|) == |slots|
  {
    var rounds := RoundsBySize(env, false, slots);
    RoundCount(|slots|);
    ExactPower(|slots|, |rounds|);
  }

  /** A power of two is reached exactly. */
  lemma {:induction false} ExactPower(p: nat, k: nat)
    requires PowerOfTwo(p) && p <= Power(k) && (k > 0 ==> Power(k - 1) < p)
    ensures p == Power(k)
  {
    if k > 0 { ExactPower(p / 2, k - 1); }
  }
}
