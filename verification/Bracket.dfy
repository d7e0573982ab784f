// Bracket formation: packages/domain/src/bracket.ts.
// Sorting by hash is an arbitrary ordering that permutes its input.

module Bracket {
  import opened Wrappers
  import opened Canonical

  datatype Kind = Entrant | Winner | Loser
  datatype Slot = Slot(kind: Kind, id: Digest)
  datatype Stage = Preliminary | Main | ThirdPlace | FifthPlace
  datatype Match = Match(id: Digest, stage: Stage, round: nat, index: nat, slotA: Slot, slotB: Slot)
  datatype Bye = Bye(round: nat, slot: Slot)
  datatype Blueprint = Blueprint(
    entrantCount: nat, preliminaryMatchCount: nat, byeCount: nat, byes: seq<Bye>,
    matches: seq<Match>, rankSources: seq<Slot>)

  datatype SortLabel = SeedOrder | MainPlacement | RollingBye(round: nat) | RollingPlacement(k: nat)

  /** What formation depends on besides the roster: how match identifiers are made, and the
      hash-key sorts of one seed, one for each label. */
  datatype Env = Env(
    revision: nat,
    matchId: (Stage, nat, nat, Slot, Slot) -> Digest,
    order: (SortLabel, seq<Slot>) -> seq<Slot>)

  ghost predicate Permutes(env: Env) {
    forall tag, slots :: multiset(env.order(tag, slots)) == multiset(slots)
  }

  function MakeMatch(env: Env, stage: Stage, round: nat, index: nat, slotA: Slot, slotB: Slot): Match {
    Match(env.matchId(stage, round, index, slotA, slotB), stage, round, index, slotA, slotB)
  }

  function Arrange(env: Env, tag: SortLabel, slots: seq<Slot>): (r: seq<Slot>)
    requires Permutes(env)
    ensures multiset(r) == multiset(slots) && |r| == |slots|
  {
    assert |multiset(env.order(tag, slots))| == |multiset(slots)|;
    env.order(tag, slots)
  }

  function Slots(kind: Kind, ids: seq<Digest>): (r: seq<Slot>)
    ensures |r| == |ids|
    ensures forall i :: 0 <= i < |ids| ==> r[i] == Slot(kind, ids[i])
  {
    seq(|ids|, i requires 0 <= i < |ids| => Slot(kind, ids[i]))
  }

  function Ids(ms: seq<Match>): (r: seq<Digest>)
    ensures |r| == |ms|
    ensures forall i :: 0 <= i < |ms| ==> r[i] == ms[i].id
  {
    seq(|ms|, i requires 0 <= i < |ms| => ms[i].id)
  }

  function Winners(ms: seq<Match>): seq<Slot> { Slots(Winner, Ids(ms)) }

  function Losers(ms: seq<Match>): seq<Slot> { Slots(Loser, Ids(ms)) }

  // ---------- the shape of both brackets ----------

  /** Consecutive slots paired off, as the inner loops push them. */
  function Pairings(env: Env, stage: Stage, round: nat, slots: seq<Slot>): (ms: seq<Match>)
    ensures |ms| == |slots| / 2
  {
    if |slots| < 2 then []
    else if |slots| % 2 == 1 then Pairings(env, stage, round, slots[..|slots| - 1])
    else
      var n := |slots| - 2;
      Pairings(env, stage, round, slots[..n]) + [MakeMatch(env, stage, round, n / 2, slots[n], slots[n + 1])]
  }

  datatype Round = Round(bye: seq<Slot>, matches: seq<Match>)

  function Survivors(r: Round): seq<Slot> {
    r.bye + Winners(r.matches)
  }

  /** One main round. Revision 2 reorders its slots and gives the first a bye when their
      number is odd; revision 1 keeps the order, and its rounds are always even. */
  function PlayRound(env: Env, rolling: bool, slots: seq<Slot>, round: nat): (r: Round)
    requires Permutes(env)
    ensures |r.bye| == |slots| % 2 && |r.matches| == |slots| / 2
  {
    var ordered := if rolling then Arrange(env, RollingBye(round), slots) else slots;
    var odd := |slots| % 2;
    Round(ordered[..odd], Pairings(env, Main, round, ordered[odd..]))
  }

  function Rounds(env: Env, rolling: bool, slots: seq<Slot>, round: nat): seq<Round>
    requires Permutes(env)
    decreases |slots|
  {
    if |slots| <= 1 then []
    else
      var r := PlayRound(env, rolling, slots, round);
      [r] + Rounds(env, rolling, Survivors(r), round + 1)
  }

  function Flatten(rounds: seq<Round>): seq<Match> {
    if rounds == [] then [] else Flatten(rounds[..|rounds| - 1]) + rounds[|rounds| - 1].matches
  }

  function Byes(rounds: seq<Round>): seq<Bye> {
    if rounds == [] then []
    else
      var n := |rounds| - 1;
      Byes(rounds[..n]) + if rounds[n].bye == [] then [] else [Bye(n + 1, rounds[n].bye[0])]
  }

  /** The losers of the rounds before the final, last round first. */
  function Candidates(env: Env, rounds: seq<Round>, k: nat): seq<Slot>
    requires Permutes(env)
    decreases |rounds|
  {
    if rounds == [] then []
    else
      Arrange(env, RollingPlacement(k), Losers(rounds[|rounds| - 1].matches))
      + Candidates(env, rounds[..|rounds| - 1], k + 1)
  }

  // ---------- round sizes ----------

  /** The closed form of the tournament page. */
  function PageRoundSizes(n: nat): seq<nat> {
    if n <= 1 then [] else [n / 2] + PageRoundSizes((n + 1) / 2)
  }

  function Sizes(rounds: seq<Round>): (r: seq<nat>)
    ensures |r| == |rounds|
    ensures forall i :: 0 <= i < |rounds| ==> r[i] == |rounds[i].matches|
  {
    seq(|rounds|, i requires 0 <= i < |rounds| => |rounds[i].matches|)
  }

  lemma SizesCons(all: seq<Round>, r: Round, rest: seq<Round>, n: nat)
    requires all == [r] + rest && n > 1 && |r.matches| == n / 2
    requires Sizes(rest) == PageRoundSizes((n + 1) / 2)
    ensures Sizes(all) == PageRoundSizes(n)
  {
  }

  lemma RoundsCons(env: Env, rolling: bool, slots: seq<Slot>, round: nat)
    requires Permutes(env) && |slots| > 1
    ensures var r := PlayRound(env, rolling, slots, round);
            Rounds(env, rolling, slots, round) == [r] + Rounds(env, rolling, Survivors(r), round + 1)
  {
  }

  lemma RoundsUnroll(env: Env, rolling: bool, slots: seq<Slot>, round: nat) returns (r: Round, next: seq<Slot>)
    requires Permutes(env) && |slots| > 1
    ensures Rounds(env, rolling, slots, round) == [r] + Rounds(env, rolling, next, round + 1)
    ensures |r.matches| == |slots| / 2 && |next| == (|slots| + 1) / 2
  {
    r := PlayRound(env, rolling, slots, round);
    next := Survivors(r);
  }

  lemma {:induction false} SizesMatchPage(env: Env, rolling: bool, slots: seq<Slot>, round: nat)
    requires Permutes(env)
    ensures Sizes(Rounds(env, rolling, slots, round)) == PageRoundSizes(|slots|)
    decreases |slots|
  {
    if |slots| > 1 {
      var r, next := RoundsUnroll(env, rolling, slots, round);
      SizesMatchPage(env, rolling, next, round + 1);
      SizesCons(Rounds(env, rolling, slots, round), r, Rounds(env, rolling, next, round + 1), |slots|);
    }
  }

  /** For 8 entrants and more: one final, and three losers before it. */
  lemma {:induction false} LastSizes(n: nat)
    requires n >= 5
    ensures var s := PageRoundSizes(n); var k := |s|;
            k >= 3 && s[k - 1] == 1 && 1 <= s[k - 2] <= 2 && s[k - 2] + s[k - 3] >= 3
  {
    if n < 9 {
      assert PageRoundSizes(1) == [];
      assert PageRoundSizes(2) == [1];
      assert PageRoundSizes(3) == [1] + PageRoundSizes(2) == [1, 1];
      assert PageRoundSizes(4) == [2] + PageRoundSizes(2) == [2, 1];
      assert n <= 6 ==> PageRoundSizes(n) == [n / 2, 1, 1];
      assert n > 6 ==> PageRoundSizes(n) == [n / 2, 2, 1];
    } else {
      LastSizes((n + 1) / 2);
    }
  }

  ghost predicate PowerOfTwo(n: nat) {
    n == 1 || (n > 1 && n % 2 == 0 && PowerOfTwo(n / 2))
  }

  lemma {:induction false} PowerSizes(n: nat)
    requires n >= 8 && PowerOfTwo(n)
    ensures var s := PageRoundSizes(n); var k := |s|;
            k >= 3 && s[k - 1] == 1 && s[k - 2] == 2 && s[k - 3] == 4
  {
    if n < 16 {
      assert PowerOfTwo(n / 2) && PowerOfTwo(n / 2 / 2);
      assert n % 2 == 0 && n / 2 % 2 == 0 && n / 2 / 2 % 2 == 0;
      assert n == 8;
      assert PageRoundSizes(1) == [];
      assert PageRoundSizes(2) == [1];
      assert PageRoundSizes(4) == [2, 1];
    } else {
      assert (n + 1) / 2 == n / 2;
      PowerSizes(n / 2);
    }
  }

  lemma {:induction false} FlattenCons(r: Round, rest: seq<Round>)
    ensures Flatten([r] + rest) == r.matches + Flatten(rest)
  {
    var all := [r] + rest;
    if rest == [] {
      assert all[..0] == [];
    } else {
      assert all[..|rest|] == [r] + rest[..|rest| - 1];
      FlattenCons(r, rest[..|rest| - 1]);
    }
  }

  /** A knockout round loses half its slots; the main bracket of n slots has n - 1 matches. */
  lemma {:induction false} MainMatchCount(env: Env, rolling: bool, slots: seq<Slot>, round: nat)
    requires Permutes(env) && |slots| >= 1
    ensures |Flatten(Rounds(env, rolling, slots, round))| == |slots| - 1
    decreases |slots|
  {
    if |slots| > 1 {
      var r := PlayRound(env, rolling, slots, round);
      MainMatchCount(env, rolling, Survivors(r), round + 1);
      FlattenCons(r, Rounds(env, rolling, Survivors(r), round + 1));
    }
  }

  function Power(k: nat): nat {
    if k == 0 then 1 else 2 * Power(k - 1)
  }

  /** The number of rounds is the least k with 2^k >= n, the ceiling of log2 n. */
  lemma {:induction false} RoundCount(n: nat)
    requires n >= 1
    ensures var k := |PageRoundSizes(n)|; n <= Power(k) && (k > 0 ==> Power(k - 1) < n)
  {
    if n > 1 {
      RoundCount((n + 1) / 2);
    }
  }

  // ---------- the specifications of the two builders ----------

  lemma RoundsShape(env: Env, rolling: bool, slots: seq<Slot>)
    requires Permutes(env) && |slots| >= 5
    ensures var rounds := Rounds(env, rolling, slots, 1); var k := |rounds|;
            k >= 3 && |rounds[k - 1].matches| == 1 && 1 <= |rounds[k - 2].matches| <= 2
            && |rounds[k - 2].matches| + |rounds[k - 3].matches| >= 3
  {
    SizesMatchPage(env, rolling, slots, 1);
    LastSizes(|slots|);
    LastThree(Rounds(env, rolling, slots, 1));
  }

  lemma LastThree(rounds: seq<Round>)
    requires |rounds| >= 3
    ensures var k := |rounds|; var s := Sizes(rounds);
            s[k - 1] == |rounds[k - 1].matches| && s[k - 2] == |rounds[k - 2].matches|
              && s[k - 3] == |rounds[k - 3].matches|
  {
  }

  lemma CandidatesLength(env: Env, rounds: seq<Round>, k: nat)
    requires Permutes(env)
    ensures |Candidates(env, rounds, k)| == |Flatten(rounds)|
    decreases |rounds|
  {
    if rounds != [] {
      CandidatesLength(env, rounds[..|rounds| - 1], k + 1);
    }
  }

  function Placement(env: Env, rounds: seq<Round>): (c: seq<Slot>)
    requires Permutes(env)
    requires var k := |rounds|; k >= 3 && |rounds[k - 2].matches| + |rounds[k - 3].matches| >= 3
    ensures |c| == 3 && c <= Candidates(env, rounds[..|rounds| - 1], 0)
  {
    var front := rounds[..|rounds| - 1];
    CandidatesLength(env, front, 0);
    assert front[..|front| - 1][..|front| - 2] == front[..|front| - 2];
    assert |Flatten(front)| >= |front[|front| - 1].matches| + |front[|front| - 2].matches|;
    Candidates(env, front, 0)[..3]
  }

  function RollingSources(env: Env, entrants: seq<Digest>): (r: seq<Slot>)
    requires Permutes(env)
    ensures |r| == |entrants|
  {
    Arrange(env, SeedOrder, Slots(Entrant, entrants))
  }

  function FifthMatch(env: Env, c: seq<Slot>): Match
    requires |c| == 3
  {
    MakeMatch(env, FifthPlace, 1, 0, c[1], c[2])
  }

  function ThirdMatch(env: Env, c: seq<Slot>): Match
    requires |c| == 3
  {
    MakeMatch(env, ThirdPlace, 1, 0, c[0], Slot(Winner, FifthMatch(env, c).id))
  }

  function RollingRanks(final: Match, third: Match, fifth: Match): seq<Slot> {
    [Slot(Winner, final.id), Slot(Loser, final.id), Slot(Winner, third.id), Slot(Loser, third.id),
      Slot(Loser, fifth.id)]
  }

  /** Revision 2: rolling single bye. */
  function RollingBlueprint(env: Env, entrants: seq<Digest>): Blueprint
    requires Permutes(env) && |entrants| >= 8
  {
    var sources := RollingSources(env, entrants);
    RoundsShape(env, true, sources);
    var rounds := Rounds(env, true, sources, 1);
    var k := |rounds|;
    var final := rounds[k - 1].matches[0];
    var c := Placement(env, rounds);
    var fifth, third := FifthMatch(env, c), ThirdMatch(env, c);
    Blueprint(|entrants|, 0, |Byes(rounds)|, Byes(rounds),
              Flatten(rounds[..k - 1]) + [fifth, third, final], RollingRanks(final, third, fifth))
  }

  /** The largest power of two not above n. */
  function Base(n: nat): (p: nat)
    requires n >= 1
    ensures PowerOfTwo(p) && p <= n < 2 * p
  {
    if n == 1 then 1 else 2 * Base(n / 2)
  }

  lemma {:induction false} BaseAtLeast8(n: nat)
    requires n >= 8
    ensures Base(n) >= 8
  {
    if n >= 16 {
      BaseAtLeast8(n / 2);
    } else {
      assert Base(n) == 2 * Base(n / 2) == 4 * Base(n / 4) == 8 * Base(n / 8);
    }
  }

  function Prelims(env: Env, entrants: seq<Digest>): (ms: seq<Match>)
    requires Permutes(env) && |entrants| >= 8
    ensures |ms| == |entrants| - Base(|entrants|)
  {
    Pairings(env, Preliminary, 0, RollingSources(env, entrants)[..2 * (|entrants| - Base(|entrants|))])
  }

  function MainSources(env: Env, entrants: seq<Digest>): (r: seq<Slot>)
    requires Permutes(env) && |entrants| >= 8
    ensures |r| == Base(|entrants|) >= 8
  {
    BaseAtLeast8(|entrants|);
    Arrange(env, MainPlacement,
            Winners(Prelims(env, entrants)) + RollingSources(env, entrants)[2 * (|entrants| - Base(|entrants|))..])
  }

  lemma ShapedBySizes(rounds: seq<Round>, n: nat)
    requires n >= 8 && PowerOfTwo(n) && Sizes(rounds) == PageRoundSizes(n)
    ensures PowerShaped(rounds)
  {
    PowerSizes(n);
    LastThree(rounds);
  }

  lemma RoundsBySize(env: Env, rolling: bool, slots: seq<Slot>) returns (rounds: seq<Round>)
    requires Permutes(env) && slots != []
    ensures rounds == Rounds(env, rolling, slots, 1) && Sizes(rounds) == PageRoundSizes(|slots|)
  {
    rounds := Rounds(env, rolling, slots, 1);
    SizesMatchPage(env, rolling, slots, 1);
  }

  lemma PowerShape(env: Env, slots: seq<Slot>)
    requires Permutes(env) && |slots| >= 8 && PowerOfTwo(|slots|)
    ensures PowerShaped(Rounds(env, false, slots, 1))
  {
    var rounds := RoundsBySize(env, false, slots);
    ShapedBySizes(rounds, |slots|);
  }

  function Loss(m: Match): Slot { Slot(Loser, m.id) }

  /** The third-place match and the three fifth-place matches, in the order they are pushed. */
  function Placements(env: Env, semis: seq<Match>, quarters: seq<Match>): (ms: seq<Match>)
    requires |semis| == 2 && |quarters| == 4
    ensures |ms| == 4
  {
    var fifthA := MakeMatch(env, FifthPlace, 1, 0, Loss(quarters[0]), Loss(quarters[1]));
    var fifthB := MakeMatch(env, FifthPlace, 1, 1, Loss(quarters[2]), Loss(quarters[3]));
    [ MakeMatch(env, ThirdPlace, 1, 0, Loss(semis[0]), Loss(semis[1])), fifthA, fifthB,
      MakeMatch(env, FifthPlace, 2, 0, Slot(Winner, fifthA.id), Slot(Winner, fifthB.id)) ]
  }

  function PowerRanks(final: Match, p: seq<Match>): seq<Slot>
    requires |p| == 4
  {
    [Slot(Winner, final.id), Slot(Loser, final.id), Slot(Winner, p[0].id), Slot(Loser, p[0].id), Slot(Winner, p[3].id)]
  }

  ghost predicate PowerShaped(rounds: seq<Round>) {
    var k := |rounds|;
    k >= 3 && |rounds[k - 1].matches| == 1 && |rounds[k - 2].matches| == 2 && |rounds[k - 3].matches| == 4
  }

  function AssemblePower(env: Env, n: nat, preliminary: seq<Match>, main: seq<Match>, rounds: seq<Round>): Blueprint
    requires n >= 1 && PowerShaped(rounds)
  {
    var k := |rounds|;
    var placements := Placements(env, rounds[k - 2].matches, rounds[k - 3].matches);
    Blueprint(n, n - Base(n), 2 * Base(n) - n, [], preliminary + main + placements,
              PowerRanks(rounds[k - 1].matches[0], placements))
  }

  /** Revisions 0 and 1: preliminaries down to a power of two. */
  function PowerBlueprint(env: Env, entrants: seq<Digest>): Blueprint
    requires Permutes(env) && |entrants| >= 8
  {
    PowerShape(env, MainSources(env, entrants));
    var rounds := Rounds(env, false, MainSources(env, entrants), 1);
    AssemblePower(env, |entrants|, Prelims(env, entrants), Flatten(rounds), rounds)
  }

  // ---------- the builders, loop by loop ----------

  method PairOff(env: Env, stage: Stage, round: nat, slots: seq<Slot>) returns (ms: seq<Match>)
    requires |slots| % 2 == 0
    ensures ms == Pairings(env, stage, round, slots)
  {
    ms := [];
    var index := 0;
    while index < |slots|
      invariant 0 <= index <= |slots| && index % 2 == 0
      invariant ms == Pairings(env, stage, round, slots[..index])
    {
      assert slots[..index + 2][..index] == slots[..index];
      ms := ms + [MakeMatch(env, stage, round, index / 2, slots[index], slots[index + 1])];
      index := index + 2;
    }
    assert slots[..|slots|] == slots;
  }

  lemma FlattenSnoc(rounds: seq<Round>, r: Round)
    ensures Flatten(rounds + [r]) == Flatten(rounds) + r.matches
    ensures Byes(rounds + [r]) == Byes(rounds) + if r.bye == [] then [] else [Bye(|rounds| + 1, r.bye[0])]
  {
    assert (rounds + [r])[..|rounds|] == rounds;
  }

  /** What one pass of either loop does to the rounds still to be played. */
  lemma StepRounds(env: Env, rolling: bool, done: seq<Round>, slots: seq<Slot>, all: seq<Round>)
    requires Permutes(env) && |slots| > 1
    requires done + Rounds(env, rolling, slots, |done| + 1) == all
    ensures var r := PlayRound(env, rolling, slots, |done| + 1);
            && (done + [r]) + Rounds(env, rolling, Survivors(r), |done| + 2) == all
            && Flatten(done + [r]) == Flatten(done) + r.matches
            && Byes(done + [r]) == Byes(done) + if r.bye == [] then [] else [Bye(|done| + 1, r.bye[0])]
  {
    var r := PlayRound(env, rolling, slots, |done| + 1);
    var rest := Rounds(env, rolling, Survivors(r), |done| + 2);
    assert Rounds(env, rolling, slots, |done| + 1) == [r] + rest;
    assert (done + [r]) + rest == done + ([r] + rest);
    FlattenSnoc(done, r);
  }

  method BuildRollingByeBracket(env: Env, entrants: seq<Digest>) returns (b: Blueprint)
    requires Permutes(env) && |entrants| >= 8
    ensures b == RollingBlueprint(env, entrants)
  {
    var sources := RollingSources(env, entrants);
    RoundsShape(env, true, sources);
    var matches, mainRounds, byes := PlayRollingRounds(env, sources);
    var k := |mainRounds|;
    assert |mainRounds[k - 1].matches| == 1;  // bracket.ts:155 never throws
    var final := mainRounds[k - 1].matches[0];
    var candidates := PlacementCandidates(env, mainRounds);
    assert |candidates| == 3;  // nor does bracket.ts:159
    var fifth := MakeMatch(env, FifthPlace, 1, 0, candidates[1], candidates[2]);
    var third := MakeMatch(env, ThirdPlace, 1, 0, candidates[0], Slot(Winner, fifth.id));
    assert matches == Flatten(mainRounds[..k - 1]) + [final];  // nor does bracket.ts:163
    matches := matches[..|matches| - 1];
    matches := matches + [fifth, third, final];
    b := Blueprint(|entrants|, 0, |byes|, byes, matches, RollingRanks(final, third, fifth));
  }

  /** One pass of the loop of lines 141-153. */
  method PlayRollingRound(env: Env, sources: seq<Slot>, rounds: seq<Round>, before: seq<Match>, byesBefore: seq<Bye>,
      ghost all: seq<Round>)
    returns (mainRounds: seq<Round>, survivors: seq<Slot>, matches: seq<Match>, byes: seq<Bye>)
    requires Permutes(env) && |sources| > 1
    requires rounds + Rounds(env, true, sources, |rounds| + 1) == all
    requires before == Flatten(rounds) && byesBefore == Byes(rounds)
    ensures |mainRounds| == |rounds| + 1 && |survivors| < |sources|
    ensures mainRounds + Rounds(env, true, survivors, |mainRounds| + 1) == all
    ensures matches == Flatten(mainRounds) && byes == Byes(mainRounds)
  {
    var roundNumber := |rounds| + 1;
    var ordered := Arrange(env, RollingBye(roundNumber), sources);
    var bye: seq<Slot> := [];
    byes := byesBefore;
    if |ordered| % 2 == 1 {
      bye, ordered := ordered[..1], ordered[1..];
      byes := byes + [Bye(roundNumber, bye[0])];
    }
    var played := PairOff(env, Main, roundNumber, ordered);
    assert Round(bye, played) == PlayRound(env, true, sources, roundNumber);
    StepRounds(env, true, rounds, sources, all);
    matches := before + played;
    mainRounds := rounds + [Round(bye, played)];
    survivors := bye + Winners(played);
  }

  /** The loop of lines 141-153. */
  method PlayRollingRounds(env: Env, initial: seq<Slot>)
      returns (matches: seq<Match>, mainRounds: seq<Round>, byes: seq<Bye>)
    requires Permutes(env)
    ensures mainRounds == Rounds(env, true, initial, 1)
    ensures matches == Flatten(mainRounds) && byes == Byes(mainRounds)
  {
    matches, mainRounds, byes := [], [], [];
    var sources := initial;
    ghost var all := Rounds(env, true, initial, 1);
    assert mainRounds + all == all;
    while |sources| > 1
      invariant mainRounds + Rounds(env, true, sources, |mainRounds| + 1) == all
      invariant matches == Flatten(mainRounds) && byes == Byes(mainRounds)
      decreases |sources|
    {
      mainRounds, sources, matches, byes := PlayRollingRound(env, sources, mainRounds, matches, byes, all);
    }
  }

  /** The reverse/flatMap of lines 156-158. */
  method ReversedLosers(env: Env, front: seq<Round>) returns (c: seq<Slot>)
    requires Permutes(env)
    ensures c == Candidates(env, front, 0)
  {
    c := [];
    var left := |front|;
    assert front[..left] == front;
    while left > 0
      invariant 0 <= left <= |front|
      invariant c + Candidates(env, front[..left], |front| - left) == Candidates(env, front, 0)
    {
      var losers := Arrange(env, RollingPlacement(|front| - left), Losers(front[left - 1].matches));
      CandidatesUnroll(env, front, left);
      assert c + (losers + Candidates(env, front[..left - 1], |front| - left + 1))
          == c + losers + Candidates(env, front[..left - 1], |front| - left + 1);
      c := c + losers;
      left := left - 1;
    }
  }

  lemma CandidatesUnroll(env: Env, front: seq<Round>, left: nat)
    requires Permutes(env) && 0 < left <= |front|
    ensures Candidates(env, front[..left], |front| - left)
         == Arrange(env, RollingPlacement(|front| - left), Losers(front[left - 1].matches))
            + Candidates(env, front[..left - 1], |front| - left + 1)
  {
    assert front[..left][..left - 1] == front[..left - 1];
  }

  /** And the slice. */
  method PlacementCandidates(env: Env, mainRounds: seq<Round>) returns (c: seq<Slot>)
    requires Permutes(env)
    requires var k := |mainRounds|; k >= 3 && |mainRounds[k - 2].matches| + |mainRounds[k - 3].matches| >= 3
    ensures c == Placement(env, mainRounds)
  {
    c := ReversedLosers(env, mainRounds[..|mainRounds| - 1]);
    assert |Placement(env, mainRounds)| == 3;
    c := c[..3];
  }

  method BuildPowerBracket(env: Env, entrants: seq<Digest>) returns (b: Blueprint)
    requires Permutes(env) && |entrants| >= 8
    ensures b == PowerBlueprint(env, entrants)
  {
    var ordered := RollingSources(env, entrants);
    var n, power := |entrants|, Base(|entrants|);
    var preliminary := PairOff(env, Preliminary, 0, ordered[..2 * (n - power)]);
    assert preliminary == Prelims(env, entrants);
    var sources := Arrange(env, MainPlacement, Winners(preliminary) + ordered[2 * (n - power)..]);
    assert sources == MainSources(env, entrants);
    PowerShape(env, sources);
    var main, mainRounds := PlayPowerRounds(env, sources);
    assert PowerShaped(mainRounds);  // bracket.ts:110 never throws
    b := AssemblePower(env, n, preliminary, main, mainRounds);
  }

  /** One pass of the loop of lines 97-107. */
  method PlayPowerRound(env: Env, sources: seq<Slot>, rounds: seq<Round>, before: seq<Match>, ghost all: seq<Round>)
    returns (mainRounds: seq<Round>, survivors: seq<Slot>, matches: seq<Match>)
    requires Permutes(env) && |sources| > 1 && PowerOfTwo(|sources|)
    requires rounds + Rounds(env, false, sources, |rounds| + 1) == all && before == Flatten(rounds)
    ensures |mainRounds| == |rounds| + 1 && |survivors| < |sources| && PowerOfTwo(|survivors|)
    ensures mainRounds + Rounds(env, false, survivors, |mainRounds| + 1) == all && matches == Flatten(mainRounds)
  {
    var played := PairOff(env, Main, |rounds| + 1, sources);
    assert sources[0..] == sources;
    assert Round([], played) == PlayRound(env, false, sources, |rounds| + 1);
    assert Survivors(Round([], played)) == Winners(played);
    StepRounds(env, false, rounds, sources, all);
    matches := before + played;
    mainRounds := rounds + [Round([], played)];
    survivors := Winners(played);
  }

  /** The loop of lines 97-107: the slots of a power-of-two draw always pair off. */
  method PlayPowerRounds(env: Env, initial: seq<Slot>) returns (matches: seq<Match>, mainRounds: seq<Round>)
    requires Permutes(env) && PowerOfTwo(|initial|)
    ensures mainRounds == Rounds(env, false, initial, 1) && matches == Flatten(mainRounds)
  {
    matches, mainRounds := [], [];
    var roundSources := initial;
    ghost var all := Rounds(env, false, initial, 1);
    assert mainRounds + all == all;
    while |roundSources| > 1
      invariant PowerOfTwo(|roundSources|)
      invariant mainRounds + Rounds(env, false, roundSources, |mainRounds| + 1) == all
      invariant matches == Flatten(mainRounds)
      decreases |roundSources|
    {
      mainRounds, roundSources, matches := PlayPowerRound(env, roundSources, mainRounds, matches, all);
    }
  }

  predicate Distinct<T(==)>(s: seq<T>) {
    forall i, j :: 0 <= i < j < |s| ==> s[i] != s[j]
  }

  function BlueprintOf(env: Env, entrants: seq<Digest>): Blueprint
    requires Permutes(env) && |entrants| >= 8
  {
    if env.revision >= 2 then RollingBlueprint(env, entrants) else PowerBlueprint(env, entrants)
  }

  /** Number.MAX_SAFE_INTEGER */
  const MAX_SAFE: int := 0x1F_FFFF_FFFF_FFFF

  /** `env` stands for the orders and identifiers that tournament, seed and revision give rise to. */
  method BuildBracket(env: Env, tournament: Digest, seed: Digest, revision: int, entrants: seq<Digest>)
      returns (r: Result<Blueprint>)
    requires Permutes(env) && (0 <= revision ==> env.revision == revision)
    ensures r.Success? <==>
      && IsDigest(tournament) && IsDigest(seed) && 0 <= revision <= MAX_SAFE
      && 8 <= |entrants| <= 32 && Distinct(entrants) && forall e :: e in entrants ==> IsDigest(e)
    ensures r.Success? ==> r.value == BlueprintOf(env, entrants)
  {
    if !IsDigest(tournament) || !IsDigest(seed) { return Failure("tournament and seed digests are required"); }
    if revision < 0 || revision > MAX_SAFE { return Failure("bracket revision must be non-negative"); }
    if |entrants| < 8 || |entrants| > 32 { return Failure("entrant count must be within 8..32"); }
    if exists e | e in entrants :: !IsDigest(e) { return Failure("entrant digest is malformed"); }
    if !Distinct(entrants) { return Failure("duplicate entrant"); }
    var b;
    if env.revision >= 2 {
      b := BuildRollingByeBracket(env, entrants);
    } else {
      b := BuildPowerBracket(env, entrants);
    }
    return Success(b);
  }
}
