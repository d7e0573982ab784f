// Two cohorts whose scores have dropped by exactly what the policy allows, and which are still reported as a
// regression (packages/evaluation/src/comparison.ts:334).

module EqualDrop {
  import opened Comparison
  import opened Sequences
  import opened Wrappers

  const BASELINE: seq<int> := [64, 64, 64, 65, 65]
  const CANDIDATE: seq<int> := [59, 59, 59, 60, 60]

  /** Five runs, full coverage, and a drop of 5; everything else is allowed. */
  const POLICY: Policy := Policy(5, 10_000, 5, 100, 100, 100, map[], {})

  const SCENARIO: string := "s"
  const IDS: seq<string> := [SCENARIO]

  // ---------- the cohorts ----------

  function Name(version: string, i: nat): string
    requires i < 10
  {
    version + [(i + 48) as char]
  }

  function Ungraded(): (rows: seq<DimensionRow>)
    ensures |rows| == 6 && forall d :: 0 <= d < 6 ==> rows[d] == DimensionRow(Some(d), NotApplicable)
  {
    seq(6, d requires 0 <= d < 6 => DimensionRow(Some(d), NotApplicable))
  }

  function Card(version: string, overall: int): Scorecard {
    Scorecard(version, true, overall, Ungraded(), [], Some("d"))
  }

  /** A campaign of one scenario, finalized with the given score. */
  function OneRun(version: string, i: nat, overall: int): Campaign
    requires i < 10
  {
    var id := Name(version, i);
    var item := Item(SCENARIO, ItemFinalized, [id], Some(id), Some(Card(version, overall)), None);
    var scenarios := [Scenario(SCENARIO, "b")];
    Campaign(id, version, "o", "p", "1", scenarios, "g", "m", "r", false, [item])
  }

  function Runs(version: string, scores: seq<int>): (campaigns: seq<Campaign>)
    requires |scores| <= 10
    ensures |campaigns| == |scores|
    ensures forall i :: 0 <= i < |scores| ==> campaigns[i] == OneRun(version, i, scores[i])
  {
    seq(|scores|, i requires 0 <= i < |scores| => OneRun(version, i, scores[i]))
  }

  function Of(version: string, scores: seq<int>): Cohort
    requires |scores| <= 10
  {
    Cohort(version, Runs(version, scores))
  }

  function RunRow(version: string, i: nat, overall: int): Row
    requires i < 10
  {
    Row(SCENARIO, Some(Name(version, i)), Some(Card(version, overall)), "m")
  }

  function RunRows(version: string, scores: seq<int>): (rows: seq<Row>)
    requires |scores| <= 10
    ensures |rows| == |scores| && forall i :: 0 <= i < |scores| ==> rows[i] == RunRow(version, i, scores[i])
  {
    seq(|scores|, i requires 0 <= i < |scores| => RunRow(version, i, scores[i]))
  }

  // ---------- flattening ----------

  lemma {:induction false} FlatSingles<A, B>(f: A -> seq<B>, s: seq<A>, r: seq<B>)
    requires |r| == |s| && forall i :: 0 <= i < |s| ==> f(s[i]) == [r[i]]
    ensures Flat(f, s) == r
  {
    if s != [] {
      FlatSingles(f, s[1..], r[1..]);
      assert r == [r[0]] + r[1..];
    }
  }

  lemma {:induction false} FlatNothing<A, B>(f: A -> seq<B>, s: seq<A>)
    requires forall i :: 0 <= i < |s| ==> f(s[i]) == []
    ensures Flat(f, s) == []
  {
    if s != [] { FlatNothing(f, s[1..]); }
  }

  lemma {:induction false} FlatOnly<A, B>(f: A -> seq<B>, s: seq<A>, k: nat, y: B)
    requires k < |s| && f(s[k]) == [y] && forall i :: 0 <= i < |s| && i != k ==> f(s[i]) == []
    ensures Flat(f, s) == [y]
  {
    if k > 0 { FlatOnly(f, s[1..], k - 1, y); } else { FlatNothing(f, s[1..]); }
  }

  lemma FlatOneOf<A, B>(f: A -> seq<B>, x: A)
    ensures Flat(f, [x]) == f(x)
  {
    assert [x][1..] == [];
  }

  // ---------- the rows ----------

  lemma RowsAre(version: string, scores: seq<int>)
    requires |scores| <= 10
    ensures Rows(Runs(version, scores)) == RunRows(version, scores)
  {
    var campaigns, rows := Runs(version, scores), RunRows(version, scores);
    forall i | 0 <= i < |campaigns| ensures CampaignRows(campaigns[i]) == [rows[i]] {
      FlatOneOf(RowsIn(campaigns[i]), campaigns[i].items[0]);
    }
    FlatSingles(CampaignRows, campaigns, rows);
  }

  lemma GroupIs(version: string, scores: seq<int>)
    requires |scores| <= 10
    ensures Group(RunRows(version, scores), SCENARIO) == RunRows(version, scores)
  {
    FlatSingles(Picks(SCENARIO), RunRows(version, scores), RunRows(version, scores));
  }

  lemma CoveredIs(version: string, scores: seq<int>)
    requires |scores| == 5
    ensures Covered(RunRows(version, scores), IDS, 5) == IDS
    ensures RowsOf(RunRows(version, scores), IDS) == RunRows(version, scores)
  {
    var rows := RunRows(version, scores);
    GroupIs(version, scores);
    FlatOneOf(IfCovered(rows, 5), SCENARIO);
    FlatOneOf(GroupIn(rows), SCENARIO);
  }

  // ---------- the aggregates ----------

  lemma CardIsValid(version: string, overall: int)
    requires 0 <= overall <= 100
    ensures CardValid(Card(version, overall))
  {
    var card := Card(version, overall);
    forall d | d in DIMENSIONS ensures Matching(card, d) == [card.rows[d]] {
      AllDimensions(d);
      FlatOnly((row: DimensionRow) => OfDimension(d, row), card.rows, d, card.rows[d]);
    }
  }

  lemma NoPoints(version: string, scores: seq<int>, d: nat)
    requires scores != [] && |scores| <= 10 && d < 6
    ensures DimensionMean(RunRows(version, scores), d) == None
    ensures DimensionSpread(RunRows(version, scores), IDS, d) == None
  {
    var rows := RunRows(version, scores);
    forall i | 0 <= i < |rows| ensures PointsOf(d, rows[i]) == [] {
      var card := rows[i].scorecard.value;
      FlatOnly((row: DimensionRow) => OfDimension(d, row), card.rows, d, card.rows[d]);
    }
    FlatNothing(PointsFor(d), rows);
    GroupIs(version, scores);
    FlatOneOf(SpreadIn(PointsFor(d), rows), SCENARIO);
  }

  predicate Between(scores: seq<int>, low: int, high: int) {
    low in scores && high in scores && forall x :: x in scores ==> low <= x <= high
  }

  lemma Extremes(scores: seq<int>, low: int, high: int)
    requires Between(scores, low, high)
    ensures Max(scores) - Min(scores) == high - low
  {
    assert Max(scores) in scores && Min(scores) in scores;
  }

  lemma SpreadIs(values: seq<int>, low: int, high: int)
    requires Between(values, low, high)
    ensures SpreadOf(values) == [high - low]
  {
    Extremes(values, low, high);
  }

  lemma OneSpread(f: Row -> seq<int>, rows: seq<Row>, id: string, values: seq<int>, spread: seq<int>)
    requires Group(rows, id) == rows && Flat(f, rows) == values && SpreadOf(values) == spread
    ensures Spreads(f, rows, [id]) == spread
  {
    FlatOneOf(SpreadIn(f, rows), id);
  }

  lemma Overalls(version: string, scores: seq<int>)
    requires scores != [] && |scores| <= 10
    ensures Flat(OverallOf, RunRows(version, scores)) == scores
  {
    FlatSingles(OverallOf, RunRows(version, scores), scores);
  }

  lemma OverallSpreadIs(version: string, scores: seq<int>, spread: seq<int>)
    requires scores != [] && |scores| <= 10 && SpreadOf(scores) == spread
    ensures Spreads(OverallOf, RunRows(version, scores), IDS) == spread
  {
    Overalls(version, scores);
    GroupIs(version, scores);
    OneSpread(OverallOf, RunRows(version, scores), SCENARIO, scores, spread);
  }

  lemma CardsAreValid(version: string, scores: seq<int>)
    requires |scores| <= 10 && forall x :: x in scores ==> 0 <= x <= 100
    ensures CardsValid(RunRows(version, scores))
  {
    var rows := RunRows(version, scores);
    forall r | r in rows ensures r.scorecard.Some? && CardValid(r.scorecard.value) {
      var i :| 0 <= i < |rows| && rows[i] == r;
      assert scores[i] in scores;
      CardIsValid(version, scores[i]);
    }
  }

  predicate NoneSpread(rows: seq<Row>, ids: seq<string>) {
    forall d :: 0 <= d < 6 ==> DimensionSpread(rows, ids, d) == None
  }

  lemma NoSpreads(version: string, scores: seq<int>)
    requires scores != [] && |scores| <= 10
    ensures NoneSpread(RunRows(version, scores), IDS)
  {
    var rows := RunRows(version, scores);
    forall d | 0 <= d < 6 ensures DimensionSpread(rows, IDS, d) == None { NoPoints(version, scores, d); }
  }

  /** The aggregate of rows without graded dimensions. */
  ghost predicate AggregatesTo(rows: seq<Row>, ids: seq<string>, scores: seq<int>) {
    var a := AggregateOf(rows, ids);
    scores != [] && a.Some? && a.value.overall == Mean(scores) && |a.value.spreads| == 6 && Steady(a.value, POLICY)
  }

  /** Rows with these scores, all in one scenario, and without graded dimensions. */
  predicate Plain(rows: seq<Row>, ids: seq<string>, scores: seq<int>, spread: int) {
    && scores != [] && spread <= 100 && CardsValid(rows) && Flat(OverallOf, rows) == scores
    && Spreads(OverallOf, rows, ids) == [spread] && NoneSpread(rows, ids)
  }

  lemma PlainAggregates(rows: seq<Row>, ids: seq<string>, scores: seq<int>, spread: int)
    requires Plain(rows, ids, scores, spread)
    ensures AggregatesTo(rows, ids, scores)
  {
    assert Max([spread]) == spread;
  }

  lemma RunsArePlain(version: string, scores: seq<int>, low: int, high: int)
    requires |scores| <= 10 && 0 <= low <= high <= 100 && Between(scores, low, high)
    ensures Plain(RunRows(version, scores), IDS, scores, high - low)
  {
    CardsAreValid(version, scores);
    Overalls(version, scores);
    SpreadIs(scores, low, high);
    OverallSpreadIs(version, scores, [high - low]);
    NoSpreads(version, scores);
  }

  // ---------- the checks before ----------

  lemma NamesDiffer(v: string, w: string, i: nat, j: nat)
    requires |v| == |w| && i < 10 && j < 10 && (v != w || i != j)
    ensures Name(v, i) != Name(w, j)
  {
    assert Name(v, i)[..|v|] == v && Name(w, j)[..|w|] == w;
    assert Name(v, i)[|v|] == (i + 48) as char && Name(w, j)[|w|] == (j + 48) as char;
  }

  function Names(): (names: seq<string>)
    ensures |names| == 10
    ensures forall i :: 0 <= i < 10 ==> names[i] == if i < 5 then Name("v1", i) else Name("v2", i - 5)
  {
    seq(10, i requires 0 <= i < 10 => if i < 5 then Name("v1", i) else Name("v2", i - 5))
  }

  lemma NamesDistinct()
    ensures NoRepeats(Names())
  {
    forall i, j | 0 <= i < j < 10 ensures Names()[i] != Names()[j] {
      NamesDiffer(if i < 5 then "v1" else "v2", if j < 5 then "v1" else "v2", if i < 5 then i else i - 5,
                  if j < 5 then j else j - 5);
    }
    DistinctCounted(Names());
  }

  lemma Isolated()
    ensures Isolation(Of("v1", BASELINE), Of("v2", CANDIDATE)) == None
  {
    var all := Runs("v1", BASELINE) + Runs("v2", CANDIDATE);
    FlatSingles(IdsOf, all, Names());
    forall i | 0 <= i < 10 ensures RunIdsOf(all[i]) == [Names()[i]] { FlatOneOf(ItemRunIds, all[i].items[0]); }
    FlatSingles(RunIdsOf, all, Names());
    NamesDistinct();
  }

  lemma OneItemMatches(version: string, i: nat, overall: int)
    requires i < 10
    ensures ItemsMatch(OneRun(version, i, overall)) && !Broken(OneRun(version, i, overall))
  {
    var c := OneRun(version, i, overall);
    assert ItemScenarios(c) == IDS == ScenarioIds(c);
    DistinctCounted(ItemScenarios(c));
  }

  /** What all campaigns of both cohorts have in common. */
  predicate Alike(c: Campaign) {
    && c.owner == "o" && c.packId == "p" && c.packVersion == "1" && c.scenarios == [Scenario(SCENARIO, "b")]
    && c.generation == "g" && c.rubric == "r" && ItemsMatch(c) && !Broken(c)
  }

  lemma AllAlike(version: string, scores: seq<int>)
    requires |scores| <= 10
    ensures forall c :: c in Runs(version, scores) ==> Alike(c) && c.version == version
  {
    forall c | c in Runs(version, scores) ensures Alike(c) && c.version == version {
      var i :| 0 <= i < |scores| && Runs(version, scores)[i] == c;
      OneItemMatches(version, i, scores[i]);
    }
  }

  lemma NoMismatch()
    ensures FirstMismatch(Of("v1", BASELINE), Of("v2", CANDIDATE), POLICY) == None
    ensures !AnyBroken(Runs("v1", BASELINE) + Runs("v2", CANDIDATE))
  {
    AllAlike("v1", BASELINE);
    AllAlike("v2", CANDIDATE);
    var all := Runs("v1", BASELINE) + Runs("v2", CANDIDATE);
    assert all[0] == Runs("v1", BASELINE)[0] && all[0] in all;
    assert forall c :: c in all ==> Alike(c);
  }

  lemma RowsAreValid(version: string, scores: seq<int>)
    requires |scores| <= 10
    ensures AllValid(version, Rows(Runs(version, scores)))
  {
    RowsAre(version, scores);
  }

  lemma NothingEarly()
    ensures Early(Of("v1", BASELINE), Of("v2", CANDIDATE), POLICY) == None
  {
    Isolated();
    NoMismatch();
    RowsAreValid("v1", BASELINE);
    RowsAreValid("v2", CANDIDATE);
  }

  predicate Marked(r: Row) {
    r.scenario == SCENARIO && r.model == "m" && DigestOf(r) == Some("d")
  }

  lemma MarkedOnce(rows: seq<Row>, ids: seq<string>)
    requires rows != [] && ids == IDS && forall r :: r in rows ==> Marked(r)
    ensures !ModelMissing(rows) && !DigestsDiffer(rows, ids)
  {
    forall i | 0 <= i < |rows| ensures Picks(SCENARIO)(rows[i]) == [rows[i]] { assert Marked(rows[i]); }
    FlatSingles(Picks(SCENARIO), rows, rows);
    assert Group(rows, SCENARIO) == rows;
    assert OneDigest(rows);
  }

  lemma RunsAreMarked(version: string, scores: seq<int>)
    requires |scores| <= 10
    ensures forall r :: r in RunRows(version, scores) ==> Marked(r)
  {
  }

  lemma OneDigestEach()
    ensures var rows := RunRows("v1", BASELINE) + RunRows("v2", CANDIDATE);
            !ModelMissing(rows) && !DigestsDiffer(rows, IDS)
  {
    var rows := RunRows("v1", BASELINE) + RunRows("v2", CANDIDATE);
    RunsAreMarked("v1", BASELINE);
    RunsAreMarked("v2", CANDIDATE);
    MarkedOnce(rows, IDS);
  }

  // ---------- the comparison ----------

  lemma JudgedFrom(b: seq<Row>, c: seq<Row>, ids: seq<string>)
    requires Plain(b, ids, BASELINE, 1) && Plain(c, ids, CANDIDATE, 1)
    requires !ModelMissing(b + c) && !DigestsDiffer(b + c, ids)
    ensures Judge(b, c, ids, 10_000, POLICY).status == Regression
  {
    PlainAggregates(b, ids, BASELINE, 1);
    PlainAggregates(c, ids, CANDIDATE, 1);
    EqualDropIsReported(AggregateOf(b, ids).value, AggregateOf(c, ids).value, c, 10_000, POLICY);
  }

  lemma Bounds()
    ensures Between(BASELINE, 64, 65) && Between(CANDIDATE, 59, 60)
  {
    assert BASELINE[0] == 64 && BASELINE[3] == 65 && CANDIDATE[0] == 59 && CANDIDATE[3] == 60;
  }

  lemma JudgedRuns(b: seq<Row>, c: seq<Row>, ids: seq<string>, x: seq<int>, y: seq<int>)
    requires x == BASELINE && y == CANDIDATE && b == RunRows("v1", x) && c == RunRows("v2", y) && ids == IDS
    ensures Judge(b, c, ids, 10_000, POLICY).status == Regression
  {
    assert Plain(b, ids, x, 1) by {
      Bounds();
      RunsArePlain("v1", x, 64, 65);
    }
    assert Plain(c, ids, y, 1) by {
      Bounds();
      RunsArePlain("v2", y, 59, 60);
    }
    assert !ModelMissing(b + c) && !DigestsDiffer(b + c, ids) by { OneDigestEach(); }
    JudgedFrom(b, c, ids);
  }

  lemma Judged()
    ensures Judge(RunRows("v1", BASELINE), RunRows("v2", CANDIDATE), IDS, 10_000, POLICY).status == Regression
  {
    JudgedRuns(RunRows("v1", BASELINE), RunRows("v2", CANDIDATE), IDS, BASELINE, CANDIDATE);
  }

  lemma Compared()
    ensures Compare(RunRows("v1", BASELINE), RunRows("v2", CANDIDATE), IDS, POLICY).status == Regression
  {
    CoveredIs("v1", BASELINE);
    CoveredIs("v2", CANDIDATE);
    FlatOneOf(IfIn(IDS), SCENARIO);
    Judged();
  }

  lemma EvaluatedFrom(b: Cohort, c: Cohort, p: Policy, ids: seq<string>, rowsB: seq<Row>, rowsC: seq<Row>)
    requires ValidInput(b, c, p) && Early(b, c, p) == None && ids == ScenarioIds(b.campaigns[0]) && ids != []
    requires Rows(b.campaigns) == rowsB && Rows(c.campaigns) == rowsC
    ensures Evaluate(b, c, p) == Compare(rowsB, rowsC, ids, p)
  {
  }

  lemma FirstScenarios()
    ensures ScenarioIds(Of("v1", BASELINE).campaigns[0]) == IDS
  {
  }

  lemma Evaluated()
    requires ValidInput(Of("v1", BASELINE), Of("v2", CANDIDATE), POLICY)
    ensures Evaluate(Of("v1", BASELINE), Of("v2", CANDIDATE), POLICY)
         == Compare(RunRows("v1", BASELINE), RunRows("v2", CANDIDATE), IDS, POLICY)
  {
    NothingEarly();
    RowsAre("v1", BASELINE);
    RowsAre("v2", CANDIDATE);
    FirstScenarios();
    EvaluatedFrom(Of("v1", BASELINE), Of("v2", CANDIDATE), POLICY, IDS, RunRows("v1", BASELINE),
                  RunRows("v2", CANDIDATE));
  }

  lemma InputIsValid()
    ensures ValidInput(Of("v1", BASELINE), Of("v2", CANDIDATE), POLICY)
  {
    AllAlike("v1", BASELINE);
    AllAlike("v2", CANDIDATE);
  }

  lemma ExactDrop()
    ensures Mean(BASELINE) - Mean(CANDIDATE) == 100 * POLICY.maxDrop
  {
    ExampleMeans();
  }

  /** The overall means are 64.4 and 59.4, the policy allows a drop of 5, and the comparison is a regression. */
  lemma EqualDropIsRegression()
    ensures ValidInput(Of("v1", BASELINE), Of("v2", CANDIDATE), POLICY)
    ensures Mean(BASELINE) - Mean(CANDIDATE) == 100 * POLICY.maxDrop
    ensures Evaluate(Of("v1", BASELINE), Of("v2", CANDIDATE), POLICY).status == Regression
  {
    InputIsValid();
    ExactDrop();
    Evaluated();
    Compared();
  }
}
