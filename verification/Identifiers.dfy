// The match identifiers of a bracket really are distinct: packages/domain/src/bracket.ts:62-66
// on top of packages/protocol/src/canonical.ts:71-88.

module Identifiers {
  import opened Wrappers
  import opened Canonical
  import opened Bracket
  import opened Progression
  import opened Elimination
  import opened Ranking

  function KindText(kind: Kind): string {
    match kind case Entrant => "entrant" case Winner => "winner" case Loser => "loser"
  }

  function SlotText(slot: Slot): string {
    KindText(slot.kind) + ":" + slot.id.text
  }

  function StageText(stage: Stage): string {
    match stage
    case Preliminary => "preliminary"
    case Main => "main"
    case ThirdPlace => "third_place"
    case FifthPlace => "fifth_place"
  }

  lemma StageTextInjective(a: Stage, b: Stage)
    requires StageText(a) == StageText(b)
    ensures a == b
  {
    assert |StageText(Preliminary)| == |StageText(ThirdPlace)| == |StageText(FifthPlace)| == 11
      && |StageText(Main)| == 4;
    assert StageText(Preliminary)[0] == 'p' && StageText(ThirdPlace)[0] == 't' && StageText(FifthPlace)[0] == 'f';
  }

  /** Hash function, sorts, tournament and revision of one bracket. */
  datatype Source = Source(tournament: Digest, revision: nat, hash: string -> Digest,
      order: (SortLabel, seq<Slot>) -> seq<Slot>)

  function IdPreimage(s: Source, stage: Stage, round: nat, index: nat, slotA: Slot, slotB: Slot): Option<string> {
    MatchPreimage(s.tournament, StageText(stage), round, index, SlotText(slotA), SlotText(slotB), s.revision)
  }

  function MatchId(s: Source, stage: Stage, round: nat, index: nat, slotA: Slot, slotB: Slot): Digest {
    var text := IdPreimage(s, stage, round, index, slotA, slotB);
    s.hash(if text.Some? then text.value else "")
  }

  function CanonicalEnv(s: Source): Env {
    Env(s.revision, (stage: Stage, round: nat, index: nat, slotA: Slot, slotB: Slot) => MatchId(s, stage, round, index,
      slotA, slotB), s.order)
  }

  function PreimageOf(s: Source, m: Match): Option<string> {
    IdPreimage(s, m.stage, m.round, m.index, m.slotA, m.slotB)
  }

  ghost predicate NoCollision(s: Source, ms: seq<Match>) {
    forall i, j :: 0 <= i < |ms| && 0 <= j < |ms| && ms[i].id == ms[j].id ==>
      PreimageOf(s, ms[i]) == PreimageOf(s, ms[j])
  }

  // ---------- what every emitted match looks like ----------

  predicate Regular(env: Env, entrants: seq<Digest>, m: Match) {
    && m.id == env.matchId(m.stage, m.round, m.index, m.slotA, m.slotB)
    && m.round <= |entrants| && m.index <= |entrants|
    && EntrantIn(m.slotA, entrants) && EntrantIn(m.slotB, entrants)
  }

  predicate AllRegular(env: Env, entrants: seq<Digest>, ms: seq<Match>) {
    forall m :: m in ms ==> Regular(env, entrants, m)
  }

  predicate SlotsIn(slots: seq<Slot>, entrants: seq<Digest>) {
    forall s :: s in slots ==> EntrantIn(s, entrants)
  }

  lemma PairingsRegular(env: Env, entrants: seq<Digest>, stage: Stage, round: nat, slots: seq<Slot>)
    requires |slots| % 2 == 0 && SlotsIn(slots, entrants) && round <= |entrants| && |slots| <= |entrants|
    ensures AllRegular(env, entrants, Pairings(env, stage, round, slots))
  {
    PairingsAre(env, stage, round, slots);
    var ms := Pairings(env, stage, round, slots);
    forall m | m in ms
      ensures Regular(env, entrants, m)
    {
      var i :| 0 <= i < |ms| && ms[i] == m;
      assert m == MakeMatch(env, stage, round, i, slots[2 * i], slots[2 * i + 1]);
      assert slots[2 * i] in slots && slots[2 * i + 1] in slots;
    }
  }

  lemma RoundRegular(env: Env, rolling: bool, entrants: seq<Digest>, slots: seq<Slot>, round: nat)
    requires Permutes(env) && SlotsIn(slots, entrants) && round <= |entrants| && |slots| <= |entrants|
    ensures var r := PlayRound(env, rolling, slots, round);
            AllRegular(env, entrants, r.matches) && SlotsIn(Survivors(r), entrants)
  {
    var ordered := if rolling then Arrange(env, RollingBye(round), slots) else slots;
    SameElements(ordered, slots);
    PairingsRegular(env, entrants, Main, round, ordered[|slots| % 2..]);
  }

  lemma {:induction false} RoundsRegular(env: Env, rolling: bool, entrants: seq<Digest>, slots: seq<Slot>, round: nat)
    requires Permutes(env) && SlotsIn(slots, entrants)
    requires 1 <= |slots| <= |entrants| && round + |slots| <= |entrants| + 1
    ensures AllRegular(env, entrants, Flatten(Rounds(env, rolling, slots, round)))
    decreases |slots|
  {
    if |slots| > 1 {
      var r := PlayRound(env, rolling, slots, round);
      RoundRegular(env, rolling, entrants, slots, round);
      RoundsRegular(env, rolling, entrants, Survivors(r), round + 1);
      FlattenCons(r, Rounds(env, rolling, Survivors(r), round + 1));
    }
  }

  lemma {:induction false} CandidatesAreLosers(env: Env, rounds: seq<Round>, k: nat)
    requires Permutes(env)
    ensures forall s :: s in Candidates(env, rounds, k) ==> s.kind == Loser
    decreases |rounds|
  {
    if rounds != [] {
      var last := Losers(rounds[|rounds| - 1].matches);
      SameElements(Arrange(env, RollingPlacement(k), last), last);
      CandidatesAreLosers(env, rounds[..|rounds| - 1], k + 1);
    }
  }

  lemma PlacementLosers(env: Env, rounds: seq<Round>)
    requires Permutes(env)
    requires var k := |rounds|; k >= 3 && |rounds[k - 2].matches| + |rounds[k - 3].matches| >= 3
    ensures forall i :: 0 <= i < 3 ==> Placement(env, rounds)[i].kind == Loser
  {
    var all := Candidates(env, rounds[..|rounds| - 1], 0);
    CandidatesAreLosers(env, rounds[..|rounds| - 1], 0);
    var c := Placement(env, rounds);
    assert c <= all && c[0] in all && c[1] in all && c[2] in all;
  }

  lemma PlacementRegular(env: Env, entrants: seq<Digest>, c: seq<Slot>)
    requires |entrants| >= 8 && |c| == 3 && forall i :: 0 <= i < 3 ==> c[i].kind == Loser
    ensures Regular(env, entrants, FifthMatch(env, c)) && Regular(env, entrants, ThirdMatch(env, c))
  {
  }

  lemma RollingRegular(env: Env, entrants: seq<Digest>)
    requires Permutes(env) && |entrants| >= 8
    ensures AllRegular(env, entrants, RollingBlueprint(env, entrants).matches)
  {
    var sources := RollingSources(env, entrants);
    EntrantSlotsKnown(env, entrants);
    RoundsShape(env, true, sources);
    RoundsRegular(env, true, entrants, sources, 1);
    var rounds := Rounds(env, true, sources, 1);
    var k := |rounds|;
    var front, final := Flatten(rounds[..k - 1]), rounds[k - 1].matches[0];
    assert Flatten(rounds) == front + [final];
    var c := Placement(env, rounds);
    PlacementLosers(env, rounds);
    PlacementRegular(env, entrants, c);
    assert RollingBlueprint(env, entrants).matches == front + [FifthMatch(env, c), ThirdMatch(env, c), final];
    AddRegular(env, entrants, front, FifthMatch(env, c), ThirdMatch(env, c), final);
  }

  lemma AddRegular(env: Env, entrants: seq<Digest>, front: seq<Match>, a: Match, b: Match, final: Match)
    requires AllRegular(env, entrants, front + [final]) && Regular(env, entrants, a) && Regular(env, entrants, b)
    ensures AllRegular(env, entrants, front + [a, b, final])
  {
    forall m | m in front || m == final ensures Regular(env, entrants, m) { assert m in front + [final]; }
  }

  lemma PowerRegular(env: Env, entrants: seq<Digest>)
    requires Permutes(env) && |entrants| >= 8
    ensures AllRegular(env, entrants, PowerBlueprint(env, entrants).matches)
  {
    EntrantSlotsKnown(env, entrants);
    var ordered, prelims, sources := RollingSources(env, entrants), Prelims(env, entrants), MainSources(env, entrants);
    var n := 2 * (|entrants| - Base(|entrants|));
    PairingsRegular(env, entrants, Preliminary, 0, ordered[..n]);
    SameElements(sources, Winners(prelims) + ordered[n..]);
    RoundsRegular(env, false, entrants, sources, 1);
    PowerShape(env, sources);
    var rounds := Rounds(env, false, sources, 1);
    var k := |rounds|;
    PlacementsRegular(env, entrants, rounds[k - 2].matches, rounds[k - 3].matches);
    assert PowerBlueprint(env, entrants).matches == prelims + Flatten(rounds)
      + Placements(env, rounds[k - 2].matches, rounds[k - 3].matches);
  }

  lemma PlacementsRegular(env: Env, entrants: seq<Digest>, semis: seq<Match>, quarters: seq<Match>)
    requires |semis| == 2 && |quarters| == 4 && |entrants| >= 8
    ensures AllRegular(env, entrants, Placements(env, semis, quarters))
  {
  }

  lemma BracketRegular(env: Env, entrants: seq<Digest>)
    requires Permutes(env) && |entrants| >= 8
    ensures AllRegular(env, entrants, BlueprintOf(env, entrants).matches)
    ensures EntrantsIn(BlueprintOf(env, entrants).matches, entrants)
  {
    if env.revision >= 2 { RollingRegular(env, entrants); } else { PowerRegular(env, entrants); }
  }

  // ---------- distinct identifiers ----------

  ghost predicate Inputs(s: Source, entrants: seq<Digest>) {
    && Permutes(CanonicalEnv(s)) && Sha256(s.hash) && IsDigest(s.tournament)
    && 8 <= |entrants| < MAX_LENGTH - 1 && s.revision < MAX_LENGTH - 1
    && (forall id :: id in entrants ==> IsDigest(id))
  }

  lemma FieldEncodes(f: Field)
    requires f.name != "" && f.kind != "" && |f.value| < MAX_LENGTH
    ensures EncodeField(f).Some?
  {
  }

  lemma {:induction false} FieldsEncode(fields: seq<Field>)
    requires forall i :: 0 <= i < |fields| ==> EncodeField(fields[i]).Some?
    ensures EncodeFields(fields).Some?
  {
    if fields != [] {
      FieldsEncode(fields[1..]);
    }
  }

  /** The identifier of a match of the bracket is always computed: canonical.ts never throws. */
  lemma PreimageExists(s: Source, entrants: seq<Digest>, m: Match)
    requires Inputs(s, entrants) && Regular(CanonicalEnv(s), entrants, m)
    requires IsDigest(m.slotA.id) && IsDigest(m.slotB.id)
    ensures PreimageOf(s, m).Some?
  {
    var f := MatchFields(s.tournament, StageText(m.stage), m.round, m.index, SlotText(m.slotA), SlotText(m.slotB),
      s.revision);
    DecimalIsShort(m.round, m.round);
    DecimalIsShort(m.index, m.index);
    DecimalIsShort(s.revision, s.revision);
    FieldEncodes(f[0]);
    FieldEncodes(f[1]);
    FieldEncodes(f[2]);
    FieldEncodes(f[3]);
    FieldEncodes(f[4]);
    FieldEncodes(f[5]);
    FieldEncodes(f[6]);
    assert |f| == 7;
    FieldsEncode(f);
  }

  lemma SlotIsDigest(s: Source, entrants: seq<Digest>, ms: seq<Match>, slot: Slot)
    requires Inputs(s, entrants) && AllRegular(CanonicalEnv(s), entrants, ms)
    requires Known(ms, slot) && EntrantIn(slot, entrants)
    ensures IsDigest(slot.id)
  {
    if slot.kind != Entrant {
      var m :| m in ms && m.id == slot.id;
      assert Regular(CanonicalEnv(s), entrants, m);
      assert m.id == MatchId(s, m.stage, m.round, m.index, m.slotA, m.slotB);
    }
  }

  /** Without a hash collision among the bracket's own preimages, equal match identifiers mean
      the same stage, round and index; so all identifiers of the bracket are distinct. */
  lemma MatchIdsDistinct(s: Source, entrants: seq<Digest>)
    requires Inputs(s, entrants)
    requires NoCollision(s, BlueprintOf(CanonicalEnv(s), entrants).matches)
    ensures var ms := BlueprintOf(CanonicalEnv(s), entrants).matches; SoundIds(ms) && UniqueIds(ms)
  {
    var env := CanonicalEnv(s);
    BracketRegular(env, entrants);
    BracketPlayable(env, entrants);
    var ms := BlueprintOf(env, entrants).matches;
    forall i, j | 0 <= i < |ms| && 0 <= j < |ms| && ms[i].id == ms[j].id
      ensures SameKey(ms[i], ms[j])
    {
      SameIdSameKey(s, entrants, ms, i, j);
    }
    WellFormedIsSorted(ms);
  }

  lemma SameIdSameKey(s: Source, entrants: seq<Digest>, ms: seq<Match>, i: nat, j: nat)
    requires Inputs(s, entrants) && Ready(ms) && AllRegular(CanonicalEnv(s), entrants, ms) && NoCollision(s, ms)
    requires i < |ms| && j < |ms| && ms[i].id == ms[j].id
    ensures SameKey(ms[i], ms[j])
  {
    var a, b := ms[i], ms[j];
    assert a in ms;
    assert forall k :: i <= k <= i ==> SameGroup(ms[k], a);
    assert ReadyAfter(ms[..i], a);
    assert Known(ms, a.slotA) && Known(ms, a.slotB);
    SlotIsDigest(s, entrants, ms, a.slotA);
    SlotIsDigest(s, entrants, ms, a.slotB);
    PreimageExists(s, entrants, a);
    MatchPreimageInjective(s.tournament, StageText(a.stage), a.round, a.index, SlotText(a.slotA), SlotText(a.slotB),
      s.revision,
                           s.tournament, StageText(b.stage), b.round, b.index, SlotText(b.slotA), SlotText(b.slotB),
                             s.revision);
    StageTextInjective(a.stage, b.stage);
  }

  /** So a canonical bracket of distinct entrants is one the ranking theorems speak about. */
  lemma CanonicalIsLegal(s: Source, entrants: seq<Digest>)
    requires Inputs(s, entrants) && Distinct(entrants)
    requires NoCollision(s, BlueprintOf(CanonicalEnv(s), entrants).matches)
    ensures Legal(CanonicalEnv(s), entrants)
  {
    MatchIdsDistinct(s, entrants);
  }

  lemma SlotTextInjective(a: Slot, b: Slot)
    requires SlotText(a) == SlotText(b)
    ensures a == b
  {
    assert KindText(Entrant)[0] == 'e' && KindText(Winner)[0] == 'w' && KindText(Loser)[0] == 'l';
    assert SlotText(a)[0] == KindText(a.kind)[0] && SlotText(b)[0] == KindText(b.kind)[0];
    var n := |KindText(a.kind)| + 1;
    assert SlotText(a)[n..] == a.id.text && SlotText(b)[n..] == b.id.text;
  }

  predicate IsSlotText(text: string, slot: Slot) {
    text == match slot.kind
            case Entrant => "entrant:" + slot.id.text
            case Winner => "winner:" + slot.id.text
            case Loser => "loser:" + slot.id.text
  }

  predicate IsSlot(f: Field, name: string, slot: Slot) {
    f.name == name && f.kind == "slot" && IsSlotText(f.value, slot)
  }

  lemma SlotSays(slot: Slot)
    ensures IsSlotText(SlotText(slot), slot)
  {
    match slot.kind
    case Entrant => assert KindText(Entrant) + ":" == "entrant:";
    case Winner => assert KindText(Winner) + ":" == "winner:";
    case Loser => assert KindText(Loser) + ":" == "loser:";
  }

  /** A match identifier is the hash of what the match is: its kind, stage, place and slots. */
  lemma IdSays(s: Source, stage: Stage, round: nat, index: nat, slotA: Slot, slotB: Slot)
      returns (text: string, f: seq<Field>)
    requires IdPreimage(s, stage, round, index, slotA, slotB).Some?
    ensures MatchId(s, stage, round, index, slotA, slotB) == s.hash(text) && Says(text, "match", f) && |f| == 7
    ensures IsField(f[0], "tournament_id", "digest", Lower(s.tournament.text))
    ensures IsField(f[1], "stage", "text", match stage
                                           case Preliminary => "preliminary"
                                           case Main => "main"
                                           case ThirdPlace => "third_place"
                                           case FifthPlace => "fifth_place")
    ensures IsNumber(f[2], "round_number", round) && IsNumber(f[3], "match_index", index)
    ensures IsSlot(f[4], "slot_a", slotA) && IsSlot(f[5], "slot_b", slotB)
    ensures IsNumber(f[6], "bracket_revision", s.revision)
  {
    text := IdPreimage(s, stage, round, index, slotA, slotB).value;
    f := MatchPreimageSays(s.tournament, StageText(stage), round, index, SlotText(slotA), SlotText(slotB), s.revision);
    SlotSays(slotA);
    SlotSays(slotB);
  }

  /** Where the hash does not confuse the two preimages, one identifier stands for one match with its slots. */
  lemma SameIdSameMatch(s: Source, a: Match, b: Match)
    requires PreimageOf(s, a).Some? && PreimageOf(s, b).Some?
    requires s.hash(PreimageOf(s, a).value) == s.hash(PreimageOf(s, b).value) ==> PreimageOf(s, a) == PreimageOf(s, b)
    requires MatchId(s, a.stage, a.round, a.index, a.slotA, a.slotB)
          == MatchId(s, b.stage, b.round, b.index, b.slotA, b.slotB)
    ensures SameKey(a, b) && a.slotA == b.slotA && a.slotB == b.slotB
  {
    MatchPreimageInjective(
      s.tournament, StageText(a.stage), a.round, a.index, SlotText(a.slotA), SlotText(a.slotB), s.revision,
      s.tournament, StageText(b.stage), b.round, b.index, SlotText(b.slotA), SlotText(b.slotB), s.revision);
    StageTextInjective(a.stage, b.stage);
    SlotTextInjective(a.slotA, b.slotA);
    SlotTextInjective(a.slotB, b.slotB);
  }
}
