// Who loses, who meets in the placement matches, and who takes which rank: the built bracket in terms of the
// stages, rounds and indices of its own matches, and of what the results say of their sides.

module Finishers {
  import opened Wrappers
  import opened Canonical
  import opened Bracket
  import opened Progression
  import opened Elimination
  import opened Ranking

  // ---------- single elimination ----------

  /** The result of m goes to w's side. */
  predicate WonBy(val: Slot -> Option<Digest>, results: Results, m: Match, w: Digest) {
    && m.id in results
    && ((results[m.id] == AWin && val(m.slotA) == Some(w)) || (results[m.id] == BWin && val(m.slotB) == Some(w)))
  }

  /** The result of m goes against l's side. */
  predicate LostBy(val: Slot -> Option<Digest>, results: Results, m: Match, l: Digest) {
    && m.id in results
    && ((results[m.id] == AWin && val(m.slotB) == Some(l)) || (results[m.id] == BWin && val(m.slotA) == Some(l)))
  }

  predicate InKnockout(m: Match) {
    m.stage == Preliminary || m.stage == Main
  }

  /** How many matches of the knockout x loses. */
  function Losses(val: Slot -> Option<Digest>, results: Results, ms: seq<Match>, x: Digest): nat {
    if ms == [] then 0
    else
      var m := ms[|ms| - 1];
      Losses(val, results, ms[..|ms| - 1], x) + if InKnockout(m) && LostBy(val, results, m, x) then 1 else 0
  }

  function Total(val: Slot -> Option<Digest>): Slot -> Digest {
    (slot: Slot) => if val(slot).Some? then val(slot).value else slot.id
  }

  lemma SidesStand(val: Slot -> Option<Digest>, ms: seq<Match>, results: Results, i: nat)
    requires Sorted(ms) && Decided(ms, results) && Interprets(val, ms, results) && i < |ms|
    ensures val(ms[i].slotA).Some? && val(ms[i].slotB).Some? && Splits(Total(val), ms[i])
  {
    var m := ms[i];
    assert ReadyAfter(ms[..i], m);
    assert ms[..|ms|] == ms && m in ms;
    SidesResolve(ms, results, i);
    MeaningUnique(val, ms, |ms|, results, m.slotA);
    MeaningUnique(val, ms, |ms|, results, m.slotB);
    assert Decides(val, results, m) && Decisive(results, m.id);
  }

  ghost predicate Stands(val: Slot -> Option<Digest>, results: Results, ms: seq<Match>) {
    forall m :: m in ms ==>
      Decisive(results, m.id) && Decides(val, results, m) && val(m.slotA).Some? && val(m.slotB).Some?
  }

  lemma AllStand(val: Slot -> Option<Digest>, ms: seq<Match>, results: Results)
    requires Sorted(ms) && Decided(ms, results) && Interprets(val, ms, results)
    ensures Stands(val, results, ms) && forall m :: m in ms ==> Splits(Total(val), m)
  {
    forall m | m in ms
      ensures val(m.slotA).Some? && val(m.slotB).Some? && Splits(Total(val), m)
    {
      var i :| 0 <= i < |ms| && ms[i] == m;
      SidesStand(val, ms, results, i);
    }
  }

  lemma {:induction false} LossesConcat(val: Slot -> Option<Digest>, results: Results, a: seq<Match>, b: seq<Match>,
      x: Digest)
    ensures Losses(val, results, a + b, x) == Losses(val, results, a, x) + Losses(val, results, b, x)
  {
    if b == [] {
      assert a + b == a;
    } else {
      var n := |b| - 1;
      assert (a + b)[..|a| + n] == a + b[..n];
      LossesConcat(val, results, a, b[..n], x);
    }
  }

  /** In the knockout, to lose is to be what the loser slot stands for. */
  lemma {:induction false} KnockoutLosses(val: Slot -> Option<Digest>, results: Results, ms: seq<Match>, x: Digest)
    requires Stands(val, results, ms) && forall m :: m in ms ==> InKnockout(m)
    ensures Losses(val, results, ms, x) == Count(Total(val), Losers(ms), x)
  {
    if ms != [] {
      var front, m := ms[..|ms| - 1], ms[|ms| - 1];
      KnockoutLosses(val, results, front, x);
      assert ms == front + [m] && m in ms;
      CountLosersSnoc(Total(val), front, m, x);
    }
  }

  lemma {:induction false} PlacementLosses(val: Slot -> Option<Digest>, results: Results, ms: seq<Match>, x: Digest)
    requires forall m :: m in ms ==> m.stage == ThirdPlace || m.stage == FifthPlace
    ensures Losses(val, results, ms, x) == 0
  {
    if ms != [] {
      assert ms[|ms| - 1] in ms;
      PlacementLosses(val, results, ms[..|ms| - 1], x);
    }
  }

  /** A list of matches as a knockout around its placement matches. */
  ghost predicate Divides(ms: seq<Match>, knockout: seq<Match>, a: seq<Match>, p: seq<Match>, z: seq<Match>) {
    && ms == a + p + z && knockout == a + z
    && (forall m :: m in a || m in z ==> InKnockout(m))
    && (forall m :: m in p ==> m.stage == ThirdPlace || m.stage == FifthPlace)
  }

  lemma RollingDivided(env: Env, entrants: seq<Digest>) returns (a: seq<Match>, p: seq<Match>, z: seq<Match>)
    requires Permutes(env) && |entrants| >= 8
    ensures Divides(RollingBlueprint(env, entrants).matches,
                    Flatten(Rounds(env, true, RollingSources(env, entrants), 1)), a, p, z)
  {
    RollingFront(env, entrants);
    RoundsShape(env, true, RollingSources(env, entrants));
    var rounds := Rounds(env, true, RollingSources(env, entrants), 1);
    var k := |rounds|;
    var c := Placement(env, rounds);
    a, p, z := Flatten(rounds[..k - 1]), [FifthMatch(env, c), ThirdMatch(env, c)], [rounds[k - 1].matches[0]];
    assert a + p + z == a + [p[0], p[1], z[0]];
  }

  lemma PowerDivided(env: Env, entrants: seq<Digest>) returns (a: seq<Match>, p: seq<Match>, z: seq<Match>)
    requires Permutes(env) && |entrants| >= 8
    ensures Divides(PowerBlueprint(env, entrants).matches,
                    Prelims(env, entrants) + Flatten(Rounds(env, false, MainSources(env, entrants), 1)), a, p, z)
  {
    PowerFront(env, entrants);
    PowerShape(env, MainSources(env, entrants));
    a, p, z := AssembledDivides(env, |entrants|, Prelims(env, entrants),
                                Rounds(env, false, MainSources(env, entrants), 1));
  }

  lemma AssembledDivides(env: Env, n: nat, prelims: seq<Match>, rounds: seq<Round>)
      returns (a: seq<Match>, p: seq<Match>, z: seq<Match>)
    requires n >= 1 && PowerShaped(rounds) && BeforePlacement(prelims + Flatten(rounds))
    ensures Divides(AssemblePower(env, n, prelims, Flatten(rounds), rounds).matches, prelims + Flatten(rounds), a, p, z)
  {
    var k := |rounds|;
    a, p, z := prelims + Flatten(rounds), Placements(env, rounds[k - 2].matches, rounds[k - 3].matches), [];
    assert a + p + z == a + p && a + z == a;
  }

  lemma Divided(env: Env, entrants: seq<Digest>) returns (a: seq<Match>, p: seq<Match>, z: seq<Match>)
    requires Permutes(env) && |entrants| >= 8
    ensures Divides(BlueprintOf(env, entrants).matches, KnockoutMatches(env, entrants), a, p, z)
  {
    if env.revision >= 2 {
      a, p, z := RollingDivided(env, entrants);
    } else {
      a, p, z := PowerDivided(env, entrants);
    }
  }

  /** Single elimination: with every match decided, an entrant is on the side the result goes against in exactly one
      match of the knockout, and in none if it wins the final. */
  lemma SingleElimination(env: Env, entrants: seq<Digest>, results: Results, val: Slot -> Option<Digest>, x: Digest)
    requires Legal(env, entrants) && Decided(BlueprintOf(env, entrants).matches, results) && x in entrants
    requires Interprets(val, BlueprintOf(env, entrants).matches, results)
    ensures var b := BlueprintOf(env, entrants);
            Losses(val, results, b.matches, x) == if val(b.rankSources[0]) == Some(x) then 0 else 1
  {
    Playing(env, entrants, results);
    var b := BlueprintOf(env, entrants);
    AllStand(val, b.matches, results);
    DividedLosses(env, entrants, results, val, x);
    KnockoutCount(env, entrants, Total(val), x);
    WinnerStands(env, entrants, results, val);
  }

  lemma DividedLosses(env: Env, entrants: seq<Digest>, results: Results, val: Slot -> Option<Digest>, x: Digest)
    requires Permutes(env) && |entrants| >= 8 && Stands(val, results, BlueprintOf(env, entrants).matches)
    ensures Losses(val, results, BlueprintOf(env, entrants).matches, x)
         == Count(Total(val), Losers(KnockoutMatches(env, entrants)), x)
  {
    var a, p, z := Divided(env, entrants);
    LossesConcat(val, results, a + p, z, x);
    LossesConcat(val, results, a, p, x);
    LossesConcat(val, results, a, z, x);
    PlacementLosses(val, results, p, x);
    KnockoutLosses(val, results, a + z, x);
  }

  lemma KnockoutCount(env: Env, entrants: seq<Digest>, val: Slot -> Digest, x: Digest)
    requires Permutes(env) && |entrants| >= 8 && Distinct(entrants) && x in entrants
    requires forall id :: val(Slot(Entrant, id)) == id
    requires forall m :: m in BlueprintOf(env, entrants).matches ==> Splits(val, m)
    ensures Count(val, Losers(KnockoutMatches(env, entrants)), x)
         == if val(BlueprintOf(env, entrants).rankSources[0]) == x then 0 else 1
  {
    CountPlain(val, entrants, x);
    if env.revision >= 2 { RollingSingle(val, env, entrants, x); } else { PowerSingle(val, env, entrants, x); }
  }

  lemma WinnerStands(env: Env, entrants: seq<Digest>, results: Results, val: Slot -> Option<Digest>)
    requires Legal(env, entrants) && Decided(BlueprintOf(env, entrants).matches, results)
    requires Interprets(val, BlueprintOf(env, entrants).matches, results)
    ensures val(BlueprintOf(env, entrants).rankSources[0]).Some?
  {
    Playing(env, entrants, results);
    var b := BlueprintOf(env, entrants);
    assert b.rankSources[0] in b.rankSources;
    assert b.matches[..|b.matches|] == b.matches;
    MeaningUnique(val, b.matches, |b.matches|, results, b.rankSources[0]);
    WalkTotal(b.matches, results, b.rankSources[0]);
  }

  // ---------- who meets whom after the knockout, and for which rank ----------

  /** The only main match of the highest round. */
  ghost predicate IsFinal(ms: seq<Match>, final: Match) {
    && final in ms && final.stage == Main
    && forall m :: m in ms && m.stage == Main && m != final ==> m.round < final.round
  }

  ghost predicate OnlyOne(ms: seq<Match>, m: Match, stage: Stage) {
    m in ms && m.stage == stage && forall q :: q in ms && q.stage == stage ==> q == m
  }

  /** Three different matches before the final, the latest ones first: no other match before it is in a later round
      than the last of them. */
  ghost predicate ThreeLatest(ms: seq<Match>, final: Match, a: Match, b: Match, c: Match) {
    && (forall m :: m in [a, b, c] ==> m in ms && m.stage == Main && m.round < final.round)
    && a != b && b != c && a != c && a.round >= b.round >= c.round
    && forall m :: m in ms && m.stage == Main && m.round < final.round && m !in [a, b, c] ==> m.round <= c.round
  }

  /** Slots that are a permutation of the losers of some matches are the losers of a permutation of them. */
  lemma {:induction false} LosersOf(slots: seq<Slot>, ms: seq<Match>) returns (order: seq<Match>)
    requires multiset(slots) == multiset(Losers(ms))
    ensures slots == Losers(order) && multiset(order) == multiset(ms)
    decreases |slots|
  {
    if slots == [] {
      order := [];
      assert |multiset(Losers(ms))| == 0;
    } else {
      var front, last := slots[..|slots| - 1], slots[|slots| - 1];
      assert slots == front + [last];
      var i := PositionOf(front, last, Losers(ms));
      LosersWithout(ms, i);
      var rest := LosersOf(front, ms[..i] + ms[i + 1..]);
      order := rest + [ms[i]];
      SlotsSnoc(Loser, rest, ms[i]);
    }
  }

  lemma LosersWithout(ms: seq<Match>, i: nat)
    requires i < |ms|
    ensures Losers(ms)[..i] + Losers(ms)[i + 1..] == Losers(ms[..i] + ms[i + 1..])
    ensures Losers(ms)[i] == Slot(Loser, ms[i].id)
    ensures multiset(ms) == multiset(ms[..i] + ms[i + 1..]) + multiset{ms[i]}
  {
    assert ms == ms[..i] + [ms[i]] + ms[i + 1..];
  }

  lemma {:induction false} FlattenMain(rounds: seq<Round>, first: nat)
    requires NumberedFrom(rounds, first)
    ensures forall m :: m in Flatten(rounds) ==> m.stage == Main && m.round < first + |rounds|
  {
    if rounds != [] { FlattenMain(rounds[..|rounds| - 1], first); }
  }

  predicate Descending(ms: seq<Match>) {
    forall i, j :: 0 <= i < j < |ms| ==> ms[i].round >= ms[j].round
  }

  /** The candidates are the losers of the rounds before the final, latest round first. */
  lemma {:induction false} CandidatesDescend(env: Env, rounds: seq<Round>, k: nat) returns (order: seq<Match>)
    requires Permutes(env) && NumberedFrom(rounds, 1)
    ensures Candidates(env, rounds, k) == Losers(order)
    ensures multiset(order) == multiset(Flatten(rounds)) && Descending(order)
    decreases |rounds|
  {
    if rounds == [] {
      order := [];
    } else {
      var early := CandidatesDescend(env, rounds[..|rounds| - 1], k + 1);
      order := CandidatesLater(env, rounds, k, early);
    }
  }

  lemma CandidatesLater(env: Env, rounds: seq<Round>, k: nat, early: seq<Match>) returns (order: seq<Match>)
    requires Permutes(env) && rounds != [] && NumberedFrom(rounds, 1)
    requires var front := rounds[..|rounds| - 1];
             && Candidates(env, front, k + 1) == Losers(early)
             && multiset(early) == multiset(Flatten(front)) && Descending(early)
    ensures Candidates(env, rounds, k) == Losers(order)
    ensures multiset(order) == multiset(Flatten(rounds)) && Descending(order)
  {
    var n := |rounds| - 1;
    var last := rounds[n].matches;
    var late := LosersOf(Arrange(env, RollingPlacement(k), Losers(last)), last);
    order := late + early;
    LosersConcat(late, early);
    FlattenMain(rounds[..n], 1);
    LateThenEarly(late, last, early, Flatten(rounds[..n]), n + 1);
  }

  lemma LateThenEarly(late: seq<Match>, last: seq<Match>, early: seq<Match>, before: seq<Match>, round: nat)
    requires multiset(late) == multiset(last) && multiset(early) == multiset(before) && Descending(early)
    requires forall m :: m in last ==> m.round == round
    requires forall m :: m in before ==> m.round < round
    ensures multiset(late + early) == multiset(before + last) && Descending(late + early)
  {
    SameElements(late, last);
    SameElements(early, before);
    var all := late + early;
    forall i, j | 0 <= i < j < |all| ensures all[i].round >= all[j].round {
      assert i < |late| ==> all[i] in late;
      if j < |late| { assert all[j] in late; } else { assert all[j] in early; }
      if i >= |late| { assert all[i] == early[i - |late|] && all[j] == early[j - |late|]; }
    }
  }

  lemma RepeatedCount<T>(s: seq<T>, i: nat, j: nat)
    requires i < j < |s| && s[i] == s[j]
    ensures multiset(s)[s[i]] >= 2
  {
    assert s == s[..j] + [s[j]] + s[j + 1..];
    assert s[..j][i] == s[i] && s[i] in s[..j];
  }

  lemma CountedTwice<T>(s: seq<T>, x: T) returns (i: nat, j: nat)
    requires multiset(s)[x] >= 2
    ensures i < |s| && j < |s| && i != j && s[i] == s[j] == x
  {
    assert x in multiset(s);
    i :| 0 <= i < |s| && s[i] == x;
    assert s == s[..i] + [s[i]] + s[i + 1..];
    assert x in multiset(s[..i] + s[i + 1..]);
    var k :| 0 <= k < |s| - 1 && (s[..i] + s[i + 1..])[k] == x;
    j := if k < i then k else k + 1;
  }

  lemma PermutedDistinct<T>(a: seq<T>, b: seq<T>)
    requires multiset(a) == multiset(b) && Distinct(a)
    ensures Distinct(b)
  {
    forall i, j | 0 <= i < j < |b| ensures b[i] != b[j] {
      if b[i] == b[j] {
        RepeatedCount(b, i, j);
        var p, q := CountedTwice(a, b[i]);
        assert false;
      }
    }
  }

  lemma LatestThree(front: seq<Match>, order: seq<Match>, ms: seq<Match>, final: Match)
    requires multiset(order) == multiset(front) && Distinct(front) && Descending(order) && |order| >= 3
    requires forall m :: m in front ==> m in ms && m.stage == Main && m.round < final.round
    requires forall m :: m in ms && m.stage == Main && m.round < final.round ==> m in front
    ensures ThreeLatest(ms, final, order[0], order[1], order[2])
  {
    PermutedDistinct(front, order);
    SameElements(front, order);
    forall m | m in [order[0], order[1], order[2]]
      ensures m in ms && m.stage == Main && m.round < final.round
    {
      assert m in order;
    }
    forall m | m in ms && m.stage == Main && m.round < final.round && m !in [order[0], order[1], order[2]]
      ensures m.round <= order[2].round
    {
      assert m in order;
      var i :| 0 <= i < |order| && order[i] == m;
      assert i > 2;
    }
  }

  /** The ranks of a bracket of revision 2, and who plays for them. */
  ghost predicate RollingPodium(b: Blueprint, final: Match, third: Match, fifth: Match, x: Match, y: Match, z: Match) {
    && IsFinal(b.matches, final) && OnlyOne(b.matches, third, ThirdPlace) && OnlyOne(b.matches, fifth, FifthPlace)
    && b.rankSources == [Slot(Winner, final.id), Slot(Loser, final.id), Slot(Winner, third.id), Slot(Loser, third.id),
                         Slot(Loser, fifth.id)]
    && ThreeLatest(b.matches, final, x, y, z)
    && third.slotA == Slot(Loser, x.id) && third.slotB == Slot(Winner, fifth.id)
    && fifth.slotA == Slot(Loser, y.id) && fifth.slotB == Slot(Loser, z.id)
  }

  /** Revision 2: the third-place match is between the first of the three latest losers and the winner of the
      fifth-place match between the other two; its loser is ranked fifth. */
  lemma RollingRanked(env: Env, entrants: seq<Digest>)
      returns (final: Match, third: Match, fifth: Match, x: Match, y: Match, z: Match)
    requires Permutes(env) && |entrants| >= 8 && env.revision >= 2
    ensures RollingPodium(BlueprintOf(env, entrants), final, third, fifth, x, y, z)
  {
    var rounds := Rounds(env, true, RollingSources(env, entrants), 1);
    RollingFront(env, entrants);
    RoundsShape(env, true, RollingSources(env, entrants));
    RoundsNumbered(env, true, RollingSources(env, entrants), 1);
    var front;
    front, final, third, fifth, x, y, z := RollingPlaces(env, rounds);
    RollingPlaced(RollingBlueprint(env, entrants), front, final, third, fifth, x, y, z);
  }

  lemma RollingPlaces(env: Env, rounds: seq<Round>)
      returns (front: seq<Match>, final: Match, third: Match, fifth: Match, x: Match, y: Match, z: Match)
    requires Permutes(env) && FinalLast(rounds) && NumberedFrom(rounds, 1)
    requires var k := |rounds|; |rounds[k - 2].matches| + |rounds[k - 3].matches| >= 3
    ensures var c := Placement(env, rounds); third == ThirdMatch(env, c) && fifth == FifthMatch(env, c)
    ensures front == Flatten(rounds[..|rounds| - 1]) && final == rounds[|rounds| - 1].matches[0]
    ensures final.stage == Main && forall m :: m in front ==> m.stage == Main && m.round < final.round
    ensures ThreeLatest(front, final, x, y, z)
    ensures third.stage == ThirdPlace && third.slotA == Slot(Loser, x.id) && third.slotB == Slot(Winner, fifth.id)
    ensures fifth.stage == FifthPlace && fifth.slotA == Slot(Loser, y.id) && fifth.slotB == Slot(Loser, z.id)
  {
    var k := |rounds|;
    front, final := Flatten(rounds[..k - 1]), rounds[k - 1].matches[0];
    assert final in rounds[k - 1].matches;
    FlattenMain(rounds[..k - 1], 1);
    var order := CandidatesDescend(env, rounds[..k - 1], 0);
    var c := Placement(env, rounds);
    third, fifth := ThirdMatch(env, c), FifthMatch(env, c);
    assert c == Losers(order)[..3];
    x, y, z := order[0], order[1], order[2];
    LatestThree(front, order, front, final);
  }

  lemma RollingPlaced(b: Blueprint, front: seq<Match>, final: Match, third: Match, fifth: Match, x: Match, y: Match,
      z: Match)
    requires b.matches == front + [fifth, third, final] && b.rankSources == RollingRanks(final, third, fifth)
    requires final.stage == Main && forall m :: m in front ==> m.stage == Main && m.round < final.round
    requires ThreeLatest(front, final, x, y, z)
    requires third.stage == ThirdPlace && third.slotA == Slot(Loser, x.id) && third.slotB == Slot(Winner, fifth.id)
    requires fifth.stage == FifthPlace && fifth.slotA == Slot(Loser, y.id) && fifth.slotB == Slot(Loser, z.id)
    ensures RollingPodium(b, final, third, fifth, x, y, z)
  {
    var ms := b.matches;
    assert forall m :: m in ms <==> m in front || m == fifth || m == third || m == final;
  }

  // ---------- revisions 0 and 1 ----------

  /** The one match of this stage, round and index. */
  ghost predicate At(ms: seq<Match>, m: Match, stage: Stage, round: nat, index: nat) {
    && m in ms && m.stage == stage && m.round == round && m.index == index
    && forall q :: q in ms && q.stage == stage && q.round == round && q.index == index ==> q == m
  }

  /** The matches of this stage and round, in order of their index. */
  ghost predicate AreRound(ms: seq<Match>, round: seq<Match>, stage: Stage, number: nat) {
    && (forall i :: 0 <= i < |round| ==> At(ms, round[i], stage, number, i))
    && forall q :: q in ms && q.stage == stage && q.round == number ==> q in round
  }

  /** The ranks of a bracket of revision 0 or 1, and who plays for them. */
  ghost predicate PowerPodium(b: Blueprint, final: Match, third: Match, playoffs: seq<Match>, fifth: Match,
      semis: seq<Match>, quarters: seq<Match>)
  {
    && |semis| == 2 && |quarters| == 4 && |playoffs| == 2 && final.round >= 3
    && IsFinal(b.matches, final) && OnlyOne(b.matches, third, ThirdPlace)
    && AreRound(b.matches, semis, Main, final.round - 1) && AreRound(b.matches, quarters, Main, final.round - 2)
    && AreRound(b.matches, playoffs, FifthPlace, 1) && AreRound(b.matches, [fifth], FifthPlace, 2)
    && b.rankSources == [Slot(Winner, final.id), Slot(Loser, final.id), Slot(Winner, third.id), Slot(Loser, third.id),
                         Slot(Winner, fifth.id)]
    && third.slotA == Slot(Loser, semis[0].id) && third.slotB == Slot(Loser, semis[1].id)
    && playoffs[0].slotA == Slot(Loser, quarters[0].id) && playoffs[0].slotB == Slot(Loser, quarters[1].id)
    && playoffs[1].slotA == Slot(Loser, quarters[2].id) && playoffs[1].slotB == Slot(Loser, quarters[3].id)
    && fifth.slotA == Slot(Winner, playoffs[0].id) && fifth.slotB == Slot(Winner, playoffs[1].id)
  }

  ghost predicate Indexed(rounds: seq<Round>) {
    forall i, j :: 0 <= i < |rounds| && 0 <= j < |rounds[i].matches| ==> rounds[i].matches[j].index == j
  }

  lemma RoundIndexed(env: Env, rolling: bool, slots: seq<Slot>, round: nat) returns (r: Round, next: seq<Slot>)
    requires Permutes(env) && |slots| > 1
    ensures Rounds(env, rolling, slots, round) == [r] + Rounds(env, rolling, next, round + 1) && |next| < |slots|
    ensures forall j :: 0 <= j < |r.matches| ==> r.matches[j].index == j
  {
    r := PlayRound(env, rolling, slots, round);
    next := Survivors(r);
    var ordered := if rolling then Arrange(env, RollingBye(round), slots) else slots;
    PairingsAre(env, Main, round, ordered[|slots| % 2..]);
  }

  lemma {:induction false} RoundsIndexed(env: Env, rolling: bool, slots: seq<Slot>, round: nat)
    requires Permutes(env)
    ensures Indexed(Rounds(env, rolling, slots, round))
    decreases |slots|
  {
    if |slots| > 1 {
      var r, next := RoundIndexed(env, rolling, slots, round);
      RoundsIndexed(env, rolling, next, round + 1);
      IndexedCons(r, Rounds(env, rolling, next, round + 1));
    }
  }

  lemma IndexedCons(r: Round, rest: seq<Round>)
    requires Indexed(rest) && forall j :: 0 <= j < |r.matches| ==> r.matches[j].index == j
    ensures Indexed([r] + rest)
  {
  }

  /** A main round of the list that follows the preliminaries. */
  lemma RoundIs(prelims: seq<Match>, rounds: seq<Round>, p: seq<Match>, i: nat)
    requires NumberedFrom(rounds, 1) && Indexed(rounds) && i < |rounds|
    requires (forall m :: m in prelims ==> m.stage == Preliminary) && forall m :: m in p ==> m.stage != Main
    ensures AreRound(prelims + Flatten(rounds) + p, rounds[i].matches, Main, i + 1)
  {
    var ms, round := prelims + Flatten(rounds) + p, rounds[i].matches;
    RoundMatchesIn(rounds, i);
    forall q | q in ms && q.stage == Main && q.round == i + 1 ensures q in round {
      assert q in Flatten(rounds);
      InItsRound(rounds, 1, q);
    }
    forall j | 0 <= j < |round| ensures At(ms, round[j], Main, i + 1, j) {
      assert round[j] in round;
    }
  }

  lemma {:induction false} InItsRound(rounds: seq<Round>, first: nat, q: Match)
    requires NumberedFrom(rounds, first) && q in Flatten(rounds)
    ensures first <= q.round < first + |rounds| && q in rounds[q.round - first].matches
  {
    var n := |rounds| - 1;
    if q in rounds[n].matches { } else { InItsRound(rounds[..n], first, q); }
  }

  lemma PowerPlaced(env: Env, n: nat, prelims: seq<Match>, rounds: seq<Round>)
      returns (final: Match, third: Match, playoffs: seq<Match>, fifth: Match, semis: seq<Match>, quarters: seq<Match>)
    requires n >= 1 && PowerShaped(rounds) && NumberedFrom(rounds, 1) && Indexed(rounds)
    requires forall m :: m in prelims ==> m.stage == Preliminary
    ensures PowerPodium(AssemblePower(env, n, prelims, Flatten(rounds), rounds), final, third, playoffs, fifth, semis,
                        quarters)
  {
    var k := |rounds|;
    semis, quarters, final := rounds[k - 2].matches, rounds[k - 3].matches, rounds[k - 1].matches[0];
    var p := Placements(env, semis, quarters);
    third, playoffs, fifth := p[0], [p[1], p[2]], p[3];
    RoundIs(prelims, rounds, p, k - 1);
    RoundIs(prelims, rounds, p, k - 2);
    RoundIs(prelims, rounds, p, k - 3);
    FlattenMain(rounds, 1);
    assert rounds[k - 1].matches == [final];
    FinalIs(prelims + Flatten(rounds) + p, final, k);
    PlacementsAre(prelims + Flatten(rounds), p);
    assert At(prelims + Flatten(rounds) + p, [final][0], Main, k, 0);
  }

  lemma FinalIs(ms: seq<Match>, final: Match, number: nat)
    requires AreRound(ms, [final], Main, number) && forall m :: m in ms && m.stage == Main ==> m.round <= number
    ensures IsFinal(ms, final)
  {
    assert At(ms, [final][0], Main, number, 0);
  }

  lemma PlacementsAre(front: seq<Match>, p: seq<Match>)
    requires |p| == 4 && forall m :: m in front ==> InKnockout(m)
    requires p[0].stage == ThirdPlace && forall i :: 1 <= i < 4 ==> p[i].stage == FifthPlace
    requires p[1].round == p[2].round == 1 && p[3].round == 2 && p[1].index == p[3].index == 0 && p[2].index == 1
    ensures OnlyOne(front + p, p[0], ThirdPlace)
    ensures AreRound(front + p, [p[1], p[2]], FifthPlace, 1) && AreRound(front + p, [p[3]], FifthPlace, 2)
  {
    var ms := front + p;
    assert forall m :: m in ms <==> m in front || m == p[0] || m == p[1] || m == p[2] || m == p[3];
  }

  /** Revisions 0 and 1: the losing semifinalists play for the third rank, the losing quarterfinalists in two rounds
      for the fifth. */
  lemma PowerRanked(env: Env, entrants: seq<Digest>)
      returns (final: Match, third: Match, playoffs: seq<Match>, fifth: Match, semis: seq<Match>, quarters: seq<Match>)
    requires Permutes(env) && |entrants| >= 8 && env.revision < 2
    ensures PowerPodium(BlueprintOf(env, entrants), final, third, playoffs, fifth, semis, quarters)
  {
    var sources, prelims := MainSources(env, entrants), Prelims(env, entrants);
    PowerShape(env, sources);
    RoundsNumbered(env, false, sources, 1);
    RoundsIndexed(env, false, sources, 1);
    var ordered := RollingSources(env, entrants);
    PairingsNumbered(env, Preliminary, 0, ordered[..2 * (|entrants| - Base(|entrants|))]);
    final, third, playoffs, fifth, semis, quarters :=
      PowerPlaced(env, |entrants|, prelims, Rounds(env, false, sources, 1));
  }

  // ---------- the ranking, by sides ----------

  /** advanceBracket on a built bracket ranks what its five sources stand for, as soon as all of them stand for
      somebody. */
  lemma RankingMeans(env: Env, entrants: seq<Digest>, results: Results, val: Slot -> Option<Digest>)
    requires Legal(env, entrants) && results.Keys <= IdSet(BlueprintOf(env, entrants).matches)
    requires Interprets(val, BlueprintOf(env, entrants).matches, results)
    ensures var b := BlueprintOf(env, entrants); var r := Advance(b, results);
            && r.Success? && |b.rankSources| == 5
            && (r.value.Complete? <==> forall i :: 0 <= i < 5 ==> val(b.rankSources[i]).Some?)
            && (r.value.Complete? ==> |r.value.ranking| == 5)
            && (r.value.Complete? ==> forall i :: 0 <= i < 5 ==> val(b.rankSources[i]) == Some(r.value.ranking[i]))
  {
    var b := BlueprintOf(env, entrants);
    BracketPlayable(env, entrants);
    WellFormedIsSorted(b.matches);
    AdvanceIsSafe(env, entrants, results);
    AdvanceAccounts(b, results);
    forall i | 0 <= i < 5
      ensures Resolve(b.matches, results, b.rankSources[i], {}) == AsResolution(val(b.rankSources[i]))
    {
      assert b.rankSources[i] in b.rankSources && b.matches[..|b.matches|] == b.matches;
      ResolversMean(val, b.matches, results, b.rankSources[i]);
    }
    OpenOrRanked(b.matches, results, b.rankSources, Advance(b, results).value);
  }

  lemma OpenOrRanked(ms: seq<Match>, results: Results, sources: seq<Slot>, p: Progress)
    requires |sources| == 5 && Accounts(ms, results, sources, Success(p))
    ensures p.Complete? <==> forall i :: 0 <= i < 5 ==> Resolve(ms, results, sources[i], {}).Resolved?
    ensures p.Complete? ==> Ranked(ms, results, sources, p.ranking)
  {
    if p.Pending? {
      var k: nat :| StopsAt(ms, results, sources, k, true);
    }
  }

  lemma SlotsSent(val: Slot -> Option<Digest>, results: Results, m: Match, x: Digest)
    requires Decides(val, results, m)
    ensures val(Slot(Winner, m.id)) == Some(x) <==> WonBy(val, results, m, x)
    ensures val(Slot(Loser, m.id)) == Some(x) <==> LostBy(val, results, m, x)
  {
  }

  /** The match whose winner, or at revision 2 whose loser, is ranked fifth. */
  ghost predicate IsFifth(ms: seq<Match>, fifth: Match, revision: nat) {
    if revision >= 2 then OnlyOne(ms, fifth, FifthPlace) else At(ms, fifth, FifthPlace, 2, 0)
  }

  /** A complete ranking: winner and loser of the final, winner and loser of the third-place match, and the loser
      (revision 2) or the winner (before) of the last fifth-place match, each by the side its result goes to. */
  lemma RankedBySides(env: Env, entrants: seq<Digest>, results: Results, val: Slot -> Option<Digest>, final: Match,
      third: Match, fifth: Match)
    requires Legal(env, entrants) && results.Keys <= IdSet(BlueprintOf(env, entrants).matches)
    requires var b := BlueprintOf(env, entrants);
             && Interprets(val, b.matches, results)
             && Advance(b, results).Success? && Advance(b, results).value.Complete?
             && IsFinal(b.matches, final) && OnlyOne(b.matches, third, ThirdPlace)
             && IsFifth(b.matches, fifth, env.revision)
    ensures var r := Advance(BlueprintOf(env, entrants), results).value.ranking;
            && |r| == 5 && WonBy(val, results, final, r[0]) && LostBy(val, results, final, r[1])
            && WonBy(val, results, third, r[2]) && LostBy(val, results, third, r[3])
            && if env.revision >= 2 then LostBy(val, results, fifth, r[4]) else WonBy(val, results, fifth, r[4])
  {
    var r := Advance(BlueprintOf(env, entrants), results).value.ranking;
    RankingMeans(env, entrants, results, val);
    SourcesAre(env, entrants, final, third, fifth);
    SlotsSent(val, results, final, r[0]);
    SlotsSent(val, results, final, r[1]);
    SlotsSent(val, results, third, r[2]);
    SlotsSent(val, results, third, r[3]);
    SlotsSent(val, results, fifth, r[4]);
  }

  lemma SourcesAre(env: Env, entrants: seq<Digest>, final: Match, third: Match, fifth: Match)
    requires Permutes(env) && |entrants| >= 8
    requires var ms := BlueprintOf(env, entrants).matches;
             IsFinal(ms, final) && OnlyOne(ms, third, ThirdPlace) && IsFifth(ms, fifth, env.revision)
    ensures BlueprintOf(env, entrants).rankSources
         == [Slot(Winner, final.id), Slot(Loser, final.id), Slot(Winner, third.id), Slot(Loser, third.id),
             Slot(if env.revision >= 2 then Loser else Winner, fifth.id)]
  {
    if env.revision >= 2 {
      var f, t, h, x, y, z := RollingRanked(env, entrants);
      assert f == final && t == third && h == fifth;
    } else {
      var f, t, playoffs, h, semis, quarters := PowerRanked(env, entrants);
      assert [h][0] == h;
      assert f == final && t == third && h == fifth;
    }
  }
}
