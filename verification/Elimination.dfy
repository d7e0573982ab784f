// What both bracket revisions guarantee, for every roster of eight entrants and more: the
// matches are ordered group by group, the knockout is single elimination, and the ranking
// names five different entrants.

module Elimination {
  import opened Wrappers
  import opened Canonical
  import opened Bracket
  import opened Progression

  // ---------- well-formed lists, built up block by block ----------

  ghost predicate WellFormed(ms: seq<Match>) {
    Ready(ms) && DistinctKeys(ms)
  }

  predicate AllKnown(ms: seq<Match>, slots: seq<Slot>) {
    forall s :: s in slots ==> Known(ms, s)
  }

  /** No match of the list is in the given group. */
  predicate NewGroup(ms: seq<Match>, stage: Stage, round: nat) {
    forall m :: m in ms ==> !(m.stage == stage && m.round == round)
  }

  predicate IsBlock(block: seq<Match>, stage: Stage, round: nat) {
    forall i :: 0 <= i < |block| ==> block[i].stage == stage && block[i].round == round && block[i].index == i
  }

  lemma KnownLonger(ms: seq<Match>, more: seq<Match>, slot: Slot)
    requires Known(ms, slot)
    ensures Known(ms + more, slot)
  {
  }

  lemma AppendReady(ms: seq<Match>, block: seq<Match>, stage: Stage, round: nat)
    requires Ready(ms) && IsBlock(block, stage, round) && NewGroup(ms, stage, round)
    requires forall m :: m in block ==> ReadyAfter(ms, m)
    ensures Ready(ms + block)
  {
    var all := ms + block;
    forall i, j | 0 <= j <= i < |all| && (forall k :: j <= k <= i ==> SameGroup(all[k], all[i]))
      ensures ReadyAfter(all[..j], all[i])
    {
      if i < |ms| {
        assert all[..j] == ms[..j];
        assert forall k :: j <= k <= i ==> all[k] == ms[k];
      } else {
        var m := block[i - |ms|];
        assert all[i] == m;
        assert j < |ms| ==> all[j] in ms;
        assert SameGroup(all[j], all[i]);
        assert m in block && ReadyAfter(ms, m);
        assert all[..j] == ms + block[..j - |ms|];
        KnownLonger(ms, block[..j - |ms|], m.slotA);
        KnownLonger(ms, block[..j - |ms|], m.slotB);
      }
    }
  }

  lemma AppendBlock(ms: seq<Match>, block: seq<Match>, stage: Stage, round: nat)
    requires WellFormed(ms) && IsBlock(block, stage, round) && NewGroup(ms, stage, round)
    requires forall m :: m in block ==> ReadyAfter(ms, m)
    ensures WellFormed(ms + block)
  {
    AppendReady(ms, block, stage, round);
    var all := ms + block;
    forall i, j | 0 <= i < j < |all|
      ensures !SameKey(all[i], all[j])
    {
      if j >= |ms| && i < |ms| {
        assert all[i] in ms;
      }
    }
  }

  lemma {:induction false} PairingsAre(env: Env, stage: Stage, round: nat, slots: seq<Slot>)
    requires |slots| % 2 == 0
    ensures var ms := Pairings(env, stage, round, slots);
            forall i :: 0 <= i < |ms| ==> ms[i] == MakeMatch(env, stage, round, i, slots[2 * i], slots[2 * i + 1])
  {
    if |slots| >= 2 {
      PairingsAre(env, stage, round, slots[..|slots| - 2]);
    }
  }

  lemma AppendPairings(ms: seq<Match>, env: Env, stage: Stage, round: nat, slots: seq<Slot>)
    requires WellFormed(ms) && NewGroup(ms, stage, round) && |slots| % 2 == 0 && AllKnown(ms, slots)
    ensures WellFormed(ms + Pairings(env, stage, round, slots))
  {
    PairingsAre(env, stage, round, slots);
    var block := Pairings(env, stage, round, slots);
    forall m | m in block
      ensures ReadyAfter(ms, m)
    {
      var i :| 0 <= i < |block| && block[i] == m;
      assert m == MakeMatch(env, stage, round, i, slots[2 * i], slots[2 * i + 1]);
      assert slots[2 * i] in slots && slots[2 * i + 1] in slots;
    }
    AppendBlock(ms, block, stage, round);
  }

  lemma OwnSlotsKnown(before: seq<Match>, ms: seq<Match>, kind: Kind)
    ensures AllKnown(before + ms, Slots(kind, Ids(ms)))
  {
    var slots := Slots(kind, Ids(ms));
    forall s | s in slots
      ensures Known(before + ms, s)
    {
      var i :| 0 <= i < |ms| && slots[i] == s;
      assert ms[i] in before + ms;
    }
  }

  predicate EarlierRounds(ms: seq<Match>, round: nat) {
    forall m :: m in ms ==> m.stage == Preliminary || (m.stage == Main && m.round < round)
  }

  lemma SameElements<T>(a: seq<T>, b: seq<T>)
    requires multiset(a) == multiset(b)
    ensures forall x :: x in a <==> x in b
  {
    assert forall x :: x in a <==> x in multiset(a);
    assert forall x :: x in b <==> x in multiset(b);
  }

  predicate BeforePlacement(ms: seq<Match>) {
    forall m :: m in ms ==> m.stage == Preliminary || m.stage == Main
  }

  lemma RoundFacts(env: Env, rolling: bool, slots: seq<Slot>, round: nat, before: seq<Match>)
    requires Permutes(env) && WellFormed(before) && AllKnown(before, slots) && EarlierRounds(before, round)
    ensures var r := PlayRound(env, rolling, slots, round);
            && WellFormed(before + r.matches) && AllKnown(before + r.matches, Survivors(r))
            && EarlierRounds(before + r.matches, round + 1)
  {
    var ordered := if rolling then Arrange(env, RollingBye(round), slots) else slots;
    SameElements(ordered, slots);
    var odd := |slots| % 2;
    AppendPairings(before, env, Main, round, ordered[odd..]);
    PairingsAre(env, Main, round, ordered[odd..]);
    var r := PlayRound(env, rolling, slots, round);
    OwnSlotsKnown(before, r.matches, Winner);
    forall s | s in Survivors(r)
      ensures Known(before + r.matches, s)
    {
      if s in r.bye {
        KnownLonger(before, r.matches, s);
      }
    }
  }

  lemma FlattenAfter(before: seq<Match>, all: seq<Round>, r: Round, rest: seq<Round>)
    requires all == [r] + rest
    ensures before + Flatten(all) == (before + r.matches) + Flatten(rest)
  {
    FlattenCons(r, rest);
  }

  lemma UnrollRound(env: Env, rolling: bool, slots: seq<Slot>, round: nat, before: seq<Match>)
    requires Permutes(env) && |slots| > 1
    ensures var r := PlayRound(env, rolling, slots, round);
            before + Flatten(Rounds(env, rolling, slots, round))
            == (before + r.matches) + Flatten(Rounds(env, rolling, Survivors(r), round + 1))
  {
    var r := PlayRound(env, rolling, slots, round);
    RoundsCons(env, rolling, slots, round);
    FlattenAfter(before, Rounds(env, rolling, slots, round), r, Rounds(env, rolling, Survivors(r), round + 1));
  }

  lemma {:induction false} RoundsWellFormed(env: Env, rolling: bool, slots: seq<Slot>, round: nat, before: seq<Match>)
    requires Permutes(env) && WellFormed(before) && AllKnown(before, slots) && EarlierRounds(before, round)
    ensures var ms := before + Flatten(Rounds(env, rolling, slots, round));
            WellFormed(ms) && BeforePlacement(ms)
    decreases |slots|
  {
    if |slots| > 1 {
      var r := PlayRound(env, rolling, slots, round);
      RoundFacts(env, rolling, slots, round, before);
      RoundsWellFormed(env, rolling, Survivors(r), round + 1, before + r.matches);
      UnrollRound(env, rolling, slots, round, before);
    } else {
      assert before + [] == before;
    }
  }

  lemma ReadyPrefix(ms: seq<Match>, n: nat)
    requires Ready(ms) && n <= |ms|
    ensures Ready(ms[..n])
  {
    var front := ms[..n];
    forall i, j | 0 <= j <= i < n && (forall k :: j <= k <= i ==> SameGroup(front[k], front[i]))
      ensures ReadyAfter(front[..j], front[i])
    {
      assert front[..j] == ms[..j];
      assert forall k :: j <= k <= i ==> SameGroup(ms[k], ms[i]) by {
        forall k | j <= k <= i ensures SameGroup(ms[k], ms[i]) { assert SameGroup(front[k], front[i]); }
      }
    }
  }

  lemma PrefixWellFormed(ms: seq<Match>, n: nat)
    requires WellFormed(ms) && n <= |ms|
    ensures WellFormed(ms[..n])
  {
    ReadyPrefix(ms, n);
  }

  lemma LastReady(ms: seq<Match>)
    requires Ready(ms) && ms != []
    ensures ReadyAfter(ms[..|ms| - 1], ms[|ms| - 1])
  {
    var i := |ms| - 1;
    assert forall k :: i <= k <= i ==> SameGroup(ms[k], ms[i]);
  }

  lemma AppendMatch(ms: seq<Match>, m: Match)
    requires WellFormed(ms) && m.index == 0 && NewGroup(ms, m.stage, m.round) && ReadyAfter(ms, m)
    ensures WellFormed(ms + [m])
  {
    AppendBlock(ms, [m], m.stage, m.round);
  }

  ghost predicate NumberedFrom(rounds: seq<Round>, first: nat) {
    forall i, m :: 0 <= i < |rounds| && m in rounds[i].matches ==>
      m.stage == Main && m.round == first + i && m.index < |rounds[i].matches|
  }

  lemma RoundNumbered(env: Env, rolling: bool, slots: seq<Slot>, round: nat) returns (r: Round, next: seq<Slot>)
    requires Permutes(env) && |slots| > 1
    ensures Rounds(env, rolling, slots, round) == [r] + Rounds(env, rolling, next, round + 1) && |next| < |slots|
    ensures forall m :: m in r.matches ==> m.stage == Main && m.round == round && m.index < |r.matches|
  {
    r := PlayRound(env, rolling, slots, round);
    next := Survivors(r);
    var ordered := if rolling then Arrange(env, RollingBye(round), slots) else slots;
    PairingsNumbered(env, Main, round, ordered[|slots| % 2..]);
  }

  lemma PairingsNumbered(env: Env, stage: Stage, round: nat, slots: seq<Slot>)
    requires |slots| % 2 == 0
    ensures var ms := Pairings(env, stage, round, slots);
            forall m :: m in ms ==> m.stage == stage && m.round == round && m.index < |ms|
  {
    PairingsAre(env, stage, round, slots);
  }

  lemma {:induction false} RoundsNumbered(env: Env, rolling: bool, slots: seq<Slot>, round: nat)
    requires Permutes(env)
    ensures NumberedFrom(Rounds(env, rolling, slots, round), round)
    decreases |slots|
  {
    if |slots| > 1 {
      var r, next := RoundNumbered(env, rolling, slots, round);
      RoundsNumbered(env, rolling, next, round + 1);
      NumberedCons(r, Rounds(env, rolling, next, round + 1), round);
    }
  }

  lemma NumberedCons(r: Round, rest: seq<Round>, first: nat)
    requires NumberedFrom(rest, first + 1)
    requires forall m :: m in r.matches ==> m.stage == Main && m.round == first && m.index < |r.matches|
    ensures NumberedFrom([r] + rest, first)
  {
  }

  lemma {:induction false} FlattenNumbered(rounds: seq<Round>, first: nat)
    requires NumberedFrom(rounds, first)
    ensures EarlierRounds(Flatten(rounds), first + |rounds|)
  {
    if rounds != [] {
      FlattenNumbered(rounds[..|rounds| - 1], first);
    }
  }

  // ---------- both blueprints are well formed ----------

  ghost predicate Playable(b: Blueprint) {
    && WellFormed(b.matches)
    && |b.rankSources| == 5
    && AllKnown(b.matches, b.rankSources)
  }

  lemma LosersKnown(ms: seq<Match>, part: seq<Match>)
    requires forall m :: m in part ==> m in ms
    ensures AllKnown(ms, Losers(part))
  {
    forall s | s in Losers(part)
      ensures Known(ms, s)
    {
      var i :| 0 <= i < |part| && Losers(part)[i] == s;
      assert part[i] in ms;
    }
  }

  lemma {:induction false} CandidatesKnown(env: Env, rounds: seq<Round>, k: nat, ms: seq<Match>)
    requires Permutes(env) && forall m :: m in Flatten(rounds) ==> m in ms
    ensures AllKnown(ms, Candidates(env, rounds, k))
    decreases |rounds|
  {
    if rounds != [] {
      var last := rounds[|rounds| - 1].matches;
      LosersKnown(ms, last);
      SameElements(Arrange(env, RollingPlacement(k), Losers(last)), Losers(last));
      CandidatesKnown(env, rounds[..|rounds| - 1], k + 1, ms);
    }
  }

  /** The two placement matches and the final behind the earlier rounds. */
  lemma RollingTail(front: seq<Match>, fifth: Match, third: Match, final: Match)
    requires WellFormed(front) && BeforePlacement(front)
    requires fifth.stage == FifthPlace && third.stage == ThirdPlace && final.stage == Main
    requires fifth.index == 0 && third.index == 0 && final.index == 0
    requires ReadyAfter(front, fifth) && Known(front, third.slotA) && third.slotB == Slot(Winner, fifth.id)
    requires ReadyAfter(front, final) && NewGroup(front, Main, final.round)
    ensures WellFormed(front + [fifth, third, final])
  {
    AppendMatch(front, fifth);
    assert fifth in front + [fifth];
    KnownLonger(front, [fifth], third.slotA);
    AppendMatch(front + [fifth], third);
    KnownLonger(front, [fifth, third], final.slotA);
    KnownLonger(front, [fifth, third], final.slotB);
    assert (front + [fifth]) + [third] == front + [fifth, third];
    AppendMatch(front + [fifth, third], final);
    assert (front + [fifth, third]) + [final] == front + [fifth, third, final];
  }

  lemma EntrantSlotsKnown(env: Env, entrants: seq<Digest>)
    requires Permutes(env)
    ensures forall s :: s in RollingSources(env, entrants) ==> s.kind == Entrant && s.id in entrants
    ensures AllKnown([], RollingSources(env, entrants))
  {
    SameElements(RollingSources(env, entrants), Slots(Entrant, entrants));
  }

  ghost predicate FinalLast(rounds: seq<Round>) {
    var k := |rounds|;
    && k >= 3 && |rounds[k - 1].matches| == 1
    && var front, final := Flatten(rounds[..k - 1]), rounds[k - 1].matches[0];
    && WellFormed(front) && BeforePlacement(front) && ReadyAfter(front, final)
    && final.stage == Main && final.index == 0 && NewGroup(front, Main, final.round)
  }

  lemma SplitFinal(rounds: seq<Round>)
    requires var k := |rounds|; k >= 3 && |rounds[k - 1].matches| == 1
    requires WellFormed(Flatten(rounds)) && NumberedFrom(rounds, 1)
    ensures FinalLast(rounds)
  {
    var k := |rounds|;
    var ms := Flatten(rounds);
    var front, final := Flatten(rounds[..k - 1]), rounds[k - 1].matches[0];
    assert ms == front + [final];
    assert ms[..|ms| - 1] == front;
    PrefixWellFormed(ms, |ms| - 1);
    LastReady(ms);
    FlattenNumbered(rounds[..k - 1], 1);
    assert final in rounds[k - 1].matches;
  }

  lemma RollingFront(env: Env, entrants: seq<Digest>)
    requires Permutes(env) && |entrants| >= 8
    ensures FinalLast(Rounds(env, true, RollingSources(env, entrants), 1))
  {
    var sources := RollingSources(env, entrants);
    EntrantSlotsKnown(env, entrants);
    RoundsShape(env, true, sources);
    RoundsWellFormed(env, true, sources, 1, []);
    RoundsNumbered(env, true, sources, 1);
    assert [] + Flatten(Rounds(env, true, sources, 1)) == Flatten(Rounds(env, true, sources, 1));
    SplitFinal(Rounds(env, true, sources, 1));
  }

  lemma RollingPlayable(env: Env, entrants: seq<Digest>)
    requires Permutes(env) && |entrants| >= 8
    ensures Playable(RollingBlueprint(env, entrants))
  {
    RollingFront(env, entrants);
    RoundsShape(env, true, RollingSources(env, entrants));
    RollingAssembled(env, Rounds(env, true, RollingSources(env, entrants), 1));
  }

  lemma RollingAssembled(env: Env, rounds: seq<Round>)
    requires Permutes(env) && FinalLast(rounds)
    requires var k := |rounds|; |rounds[k - 2].matches| + |rounds[k - 3].matches| >= 3
    ensures var k := |rounds|; var c := Placement(env, rounds);
            var front, final := Flatten(rounds[..k - 1]), rounds[k - 1].matches[0];
            var ms := front + [FifthMatch(env, c), ThirdMatch(env, c), final];
            WellFormed(ms) && AllKnown(ms, RollingRanks(final, ThirdMatch(env, c), FifthMatch(env, c)))
  {
    var k := |rounds|;
    var front, final := Flatten(rounds[..k - 1]), rounds[k - 1].matches[0];
    var c, all := Placement(env, rounds), Candidates(env, rounds[..k - 1], 0);
    CandidatesKnown(env, rounds[..k - 1], 0, front);
    assert c <= all && c[0] in all && c[1] in all && c[2] in all;
    var fifth, third := FifthMatch(env, c), ThirdMatch(env, c);
    RollingTail(front, fifth, third, final);
    var ms := front + [fifth, third, final];
    assert fifth in ms && third in ms && final in ms;
  }

  lemma PowerPlayable(env: Env, entrants: seq<Digest>)
    requires Permutes(env) && |entrants| >= 8
    ensures Playable(PowerBlueprint(env, entrants))
  {
    PowerFront(env, entrants);
    PowerShape(env, MainSources(env, entrants));
    PowerAssembled(env, |entrants|, Prelims(env, entrants), Rounds(env, false, MainSources(env, entrants), 1));
  }

  lemma PowerAssembled(env: Env, n: nat, prelims: seq<Match>, rounds: seq<Round>)
    requires n >= 1 && PowerShaped(rounds)
    requires WellFormed(prelims + Flatten(rounds)) && BeforePlacement(prelims + Flatten(rounds))
    ensures Playable(AssemblePower(env, n, prelims, Flatten(rounds), rounds))
  {
    var k := |rounds|;
    var front := prelims + Flatten(rounds);
    var semis, quarters := rounds[k - 2].matches, rounds[k - 3].matches;
    RoundMatchesIn(rounds, k - 1);
    RoundMatchesIn(rounds, k - 2);
    RoundMatchesIn(rounds, k - 3);
    PowerTail(env, front, semis, quarters);
    PowerRanksKnown(front, Placements(env, semis, quarters), rounds[k - 1].matches[0]);
  }

  lemma PowerRanksKnown(front: seq<Match>, p: seq<Match>, final: Match)
    requires |p| == 4 && final in front
    ensures AllKnown(front + p, PowerRanks(final, p))
  {
    assert p[0] in front + p && p[3] in front + p && final in front + p;
  }

  lemma PowerFront(env: Env, entrants: seq<Digest>)
    requires Permutes(env) && |entrants| >= 8
    ensures var front := Prelims(env, entrants) + Flatten(Rounds(env, false, MainSources(env, entrants), 1));
            WellFormed(front) && BeforePlacement(front)
  {
    EntrantSlotsKnown(env, entrants);
    var ordered, prelims := RollingSources(env, entrants), Prelims(env, entrants);
    var n := 2 * (|entrants| - Base(|entrants|));
    AppendPairings([], env, Preliminary, 0, ordered[..n]);
    assert [] + prelims == prelims;
    PairingsAre(env, Preliminary, 0, ordered[..n]);
    OwnSlotsKnown([], prelims, Winner);
    SameElements(MainSources(env, entrants), Winners(prelims) + ordered[n..]);
    RoundsWellFormed(env, false, MainSources(env, entrants), 1, prelims);
  }

  lemma {:induction false} RoundMatchesIn(rounds: seq<Round>, i: nat)
    requires i < |rounds|
    ensures forall m :: m in rounds[i].matches ==> m in Flatten(rounds)
  {
    if i < |rounds| - 1 {
      RoundMatchesIn(rounds[..|rounds| - 1], i);
    }
  }

  lemma PowerTail(env: Env, front: seq<Match>, semis: seq<Match>, quarters: seq<Match>)
    requires WellFormed(front) && BeforePlacement(front) && |semis| == 2 && |quarters| == 4
    requires forall m :: m in semis || m in quarters ==> m in front
    ensures WellFormed(front + Placements(env, semis, quarters))
  {
    var p := Placements(env, semis, quarters);
    assert ReadyAfter(front, p[0]) by { assert semis[0] in front && semis[1] in front; }
    AppendMatch(front, p[0]);
    FifthPlayoff(env, front + [p[0]], quarters);
    assert (front + [p[0]]) + [p[1], p[2], p[3]] == front + p;
  }

  lemma FifthPlayoff(env: Env, front: seq<Match>, quarters: seq<Match>)
    requires WellFormed(front) && |quarters| == 4 && forall m :: m in quarters ==> m in front
    requires forall m :: m in front ==> m.stage != FifthPlace
    ensures var a := MakeMatch(env, FifthPlace, 1, 0, Loss(quarters[0]), Loss(quarters[1]));
            var b := MakeMatch(env, FifthPlace, 1, 1, Loss(quarters[2]), Loss(quarters[3]));
            WellFormed(front + [a, b, MakeMatch(env, FifthPlace, 2, 0, Slot(Winner, a.id), Slot(Winner, b.id))])
  {
    var a := MakeMatch(env, FifthPlace, 1, 0, Loss(quarters[0]), Loss(quarters[1]));
    var b := MakeMatch(env, FifthPlace, 1, 1, Loss(quarters[2]), Loss(quarters[3]));
    var f := MakeMatch(env, FifthPlace, 2, 0, Slot(Winner, a.id), Slot(Winner, b.id));
    assert quarters[0] in front && quarters[1] in front && quarters[2] in front && quarters[3] in front;
    AppendBlock(front, [a, b], FifthPlace, 1);
    var more := front + [a, b];
    assert a in more && b in more;
    AppendMatch(more, f);
    assert more + [f] == front + [a, b, f];
  }

  /** Every match list the builder emits is ready group by group, with distinct stage, round
      and index, and its rank sources are matches of it. */
  lemma BracketPlayable(env: Env, entrants: seq<Digest>)
    requires Permutes(env) && |entrants| >= 8
    ensures Playable(BlueprintOf(env, entrants))
  {
    if env.revision >= 2 { RollingPlayable(env, entrants); } else { PowerPlayable(env, entrants); }
  }

  // ---------- single elimination, as conservation of entrants ----------

  function Is(a: Digest, x: Digest): nat {
    if a == x then 1 else 0
  }

  /** How often entrant x is among a list of slots, under some meaning of slots. */
  ghost function Count(val: Slot -> Digest, slots: seq<Slot>, x: Digest): nat {
    if slots == [] then 0 else Count(val, slots[..|slots| - 1], x) + Is(val(slots[|slots| - 1]), x)
  }

  /** A decided match sends one of its two sides on as winner, the other as loser. */
  ghost predicate Splits(val: Slot -> Digest, m: Match) {
    var w, l, a, b := val(Slot(Winner, m.id)), val(Slot(Loser, m.id)), val(m.slotA), val(m.slotB);
    (w == a && l == b) || (w == b && l == a)
  }

  lemma CountSnoc(val: Slot -> Digest, slots: seq<Slot>, s: Slot, x: Digest)
    ensures Count(val, slots + [s], x) == Count(val, slots, x) + Is(val(s), x)
  {
    assert (slots + [s])[..|slots|] == slots;
  }

  lemma {:induction false} CountConcat(val: Slot -> Digest, a: seq<Slot>, b: seq<Slot>, x: Digest)
    ensures Count(val, a + b, x) == Count(val, a, x) + Count(val, b, x)
  {
    if b == [] {
      assert a + b == a;
    } else {
      var front, last := b[..|b| - 1], b[|b| - 1];
      CountConcat(val, a, front, x);
      assert a + b == (a + front) + [last];
      CountSnoc(val, a + front, last, x);
    }
  }

  lemma {:induction false} CountPermutation(val: Slot -> Digest, a: seq<Slot>, b: seq<Slot>, x: Digest)
    requires multiset(a) == multiset(b)
    ensures Count(val, a, x) == Count(val, b, x)
    decreases |a|
  {
    if a == [] {
      assert |multiset(b)| == 0;
    } else {
      var front, last := a[..|a| - 1], a[|a| - 1];
      assert a == front + [last];
      var i := PositionOf(front, last, b);
      var left, right := b[..i], b[i + 1..];
      assert b == (left + [last]) + right;
      CountPermutation(val, front, left + right, x);
      CountConcat(val, left, right, x);
      CountSnoc(val, left, last, x);
      CountConcat(val, left + [last], right, x);
    }
  }

  lemma PositionOf<T>(front: seq<T>, last: T, b: seq<T>) returns (i: nat)
    requires multiset(front + [last]) == multiset(b)
    ensures i < |b| && b[i] == last && multiset(front) == multiset(b[..i] + b[i + 1..])
  {
    assert last in multiset(b);
    i :| 0 <= i < |b| && b[i] == last;
    var without := b[..i] + b[i + 1..];
    assert b == (b[..i] + [last]) + b[i + 1..];
    assert multiset(b) - multiset{last} == multiset(without);
    assert multiset(front + [last]) - multiset{last} == multiset(front);
  }

  lemma SlotsSnoc(kind: Kind, ms: seq<Match>, m: Match)
    ensures Slots(kind, Ids(ms + [m])) == Slots(kind, Ids(ms)) + [Slot(kind, m.id)]
  {
  }

  lemma LosersConcat(a: seq<Match>, b: seq<Match>)
    ensures Losers(a + b) == Losers(a) + Losers(b)
  {
  }

  lemma MatchConserves(val: Slot -> Digest, ms: seq<Match>, m: Match, x: Digest)
    requires Splits(val, m)
    ensures Count(val, Winners(ms + [m]), x) + Count(val, Losers(ms + [m]), x)
            == Count(val, Winners(ms), x) + Count(val, Losers(ms), x) + Is(val(m.slotA), x) + Is(val(m.slotB), x)
  {
    SlotsSnoc(Winner, ms, m);
    SlotsSnoc(Loser, ms, m);
    CountSnoc(val, Winners(ms), Slot(Winner, m.id), x);
    CountSnoc(val, Losers(ms), Slot(Loser, m.id), x);
  }

  lemma PairingsSnoc(env: Env, stage: Stage, round: nat, slots: seq<Slot>) returns (front: seq<Match>, m: Match)
    requires |slots| % 2 == 0 && |slots| >= 2
    ensures front == Pairings(env, stage, round, slots[..|slots| - 2])
    ensures Pairings(env, stage, round, slots) == front + [m]
    ensures m.slotA == slots[|slots| - 2] && m.slotB == slots[|slots| - 1]
  {
    var n := |slots| - 2;
    front := Pairings(env, stage, round, slots[..n]);
    m := MakeMatch(env, stage, round, n / 2, slots[n], slots[n + 1]);
  }

  lemma PairConserves(val: Slot -> Digest, front: seq<Match>, m: Match, ms: seq<Match>, slots: seq<Slot>, x: Digest)
    requires |slots| >= 2 && ms == front + [m] && Splits(val, m)
    requires m.slotA == slots[|slots| - 2] && m.slotB == slots[|slots| - 1]
    requires Count(val, Winners(front), x) + Count(val, Losers(front), x) == Count(val, slots[..|slots| - 2], x)
    ensures Count(val, Winners(ms), x) + Count(val, Losers(ms), x) == Count(val, slots, x)
  {
    var n := |slots| - 2;
    MatchConserves(val, front, m, x);
    CountSnoc(val, slots[..n], slots[n], x);
    CountSnoc(val, slots[..n] + [slots[n]], slots[n + 1], x);
    assert slots == slots[..n] + [slots[n]] + [slots[n + 1]];
  }

  /** The winners and losers of paired-off slots are exactly those who played. */
  lemma {:induction false} PairingsConserve(val: Slot -> Digest, env: Env, stage: Stage, round: nat, slots: seq<Slot>,
      x: Digest)
    requires |slots| % 2 == 0 && forall m :: m in Pairings(env, stage, round, slots) ==> Splits(val, m)
    ensures var ms := Pairings(env, stage, round, slots);
            Count(val, Winners(ms), x) + Count(val, Losers(ms), x) == Count(val, slots, x)
  {
    if |slots| >= 2 {
      var front, m := PairingsSnoc(env, stage, round, slots);
      PairingsConserve(val, env, stage, round, slots[..|slots| - 2], x);
      PairConserves(val, front, m, Pairings(env, stage, round, slots), slots, x);
    }
  }

  lemma RoundConserves(val: Slot -> Digest, env: Env, rolling: bool, slots: seq<Slot>, round: nat, x: Digest)
    requires Permutes(env) && forall m :: m in PlayRound(env, rolling, slots, round).matches ==> Splits(val, m)
    ensures var r := PlayRound(env, rolling, slots, round);
            Count(val, Survivors(r), x) + Count(val, Losers(r.matches), x) == Count(val, slots, x)
  {
    var ordered := if rolling then Arrange(env, RollingBye(round), slots) else slots;
    var odd := |slots| % 2;
    var r := PlayRound(env, rolling, slots, round);
    PairingsConserve(val, env, Main, round, ordered[odd..], x);
    CountConcat(val, ordered[..odd], Winners(r.matches), x);
    CountConcat(val, ordered[..odd], ordered[odd..], x);
    assert ordered == ordered[..odd] + ordered[odd..];
    CountPermutation(val, ordered, slots, x);
  }

  /** The slot left when all rounds are played. */
  ghost function Champion(env: Env, rolling: bool, slots: seq<Slot>, round: nat): Slot
    requires Permutes(env) && |slots| >= 1
    decreases |slots|
  {
    if |slots| == 1 then slots[0]
    else Champion(env, rolling, Survivors(PlayRound(env, rolling, slots, round)), round + 1)
  }

  lemma ChampionStep(env: Env, rolling: bool, slots: seq<Slot>, round: nat) returns (r: Round, next: seq<Slot>)
    requires Permutes(env) && |slots| >= 2
    ensures |r.matches| == |slots| / 2 && |next| == (|slots| + 1) / 2
    ensures Rounds(env, rolling, slots, round) == [r] + Rounds(env, rolling, next, round + 1)
    ensures Champion(env, rolling, slots, round) == Champion(env, rolling, next, round + 1)
    ensures |slots| == 2 ==> next == Winners(r.matches)
  {
    r := PlayRound(env, rolling, slots, round);
    next := Survivors(r);
  }

  lemma {:induction false} ChampionWinsFinal(env: Env, rolling: bool, slots: seq<Slot>, round: nat)
    requires Permutes(env) && |slots| >= 2
    ensures var rounds := Rounds(env, rolling, slots, round); var k := |rounds|;
            && k >= 1 && |rounds[k - 1].matches| == 1
            && Champion(env, rolling, slots, round) == Slot(Winner, rounds[k - 1].matches[0].id)
    decreases |slots|
  {
    var r, next := ChampionStep(env, rolling, slots, round);
    if |slots| == 2 {
      assert Rounds(env, rolling, next, round + 1) == [];
      assert Champion(env, rolling, next, round + 1) == next[0];
    } else {
      ChampionWinsFinal(env, rolling, next, round + 1);
    }
  }

  /** Everybody in the knockout either loses exactly one of its matches or is its champion:
      entrants are neither lost nor doubled. */
  lemma {:induction false} RoundsConserve(val: Slot -> Digest, env: Env, rolling: bool, slots: seq<Slot>, round: nat,
      x: Digest)
    requires Permutes(env) && |slots| >= 1
    requires forall m :: m in Flatten(Rounds(env, rolling, slots, round)) ==> Splits(val, m)
    ensures Is(val(Champion(env, rolling, slots, round)), x)
            + Count(val, Losers(Flatten(Rounds(env, rolling, slots, round))), x) == Count(val, slots, x)
    decreases |slots|
  {
    if |slots| == 1 {
      assert slots[..0] == [];
    } else {
      var r := PlayRound(env, rolling, slots, round);
      var rest := Rounds(env, rolling, Survivors(r), round + 1);
      FlattenCons(r, rest);
      RoundConserves(val, env, rolling, slots, round, x);
      RoundsConserve(val, env, rolling, Survivors(r), round + 1, x);
      LosersConcat(r.matches, Flatten(rest));
      CountConcat(val, Losers(r.matches), Losers(Flatten(rest)), x);
    }
  }
}
