// The comparison of two agent versions: packages/evaluation/src/comparison.ts:80-152, 210-343.
// A mean is kept as the whole number of hundredths whose hundredth part is the double the code has; the
// quotient is floored to that number exactly, both of its parts being far below 2^53. What is computed from
// two means is a double, in the units of module Doubles. Campaign scenarios are taken in canonical order,
// as canonicalScenarios returns them.

module Comparison {
  import opened Arithmetic
  import opened Doubles
  import opened Sequences
  import opened Wrappers

  datatype Grade = Excellent | Good | Mixed | Poor | Fail | NotApplicable | UnknownGrade
  /** None for a dimension outside the six. */
  datatype DimensionRow = DimensionRow(dimension: Option<nat>, grade: Grade)
  const DIMENSIONS: seq<nat> := [0, 1, 2, 3, 4, 5]

  /** `wellFormed` gathers the checks that compare fields with constants: status, rubric, flags and finding codes. */
  datatype Scorecard = Scorecard(version: string, wellFormed: bool, overall: int, rows: seq<DimensionRow>,
      findings: seq<string>, digest: Option<string>)
  datatype ItemState = ItemFinalized | ItemFailed | ItemOther
  datatype Item = Item(scenario: string, state: ItemState, runIds: seq<string>, runId: Option<string>,
      scorecard: Option<Scorecard>, model: Option<string>)
  datatype Scenario = Scenario(id: string, body: string)
  datatype Campaign = Campaign(
    id: string, version: string, owner: string, packId: string, packVersion: string, scenarios: seq<Scenario>,
    generation: string, model: string, rubric: string, failed: bool, items: seq<Item>)
  datatype Cohort = Cohort(version: string, campaigns: seq<Campaign>)
  datatype Policy = Policy(
    required: nat, minCoverage: nat, maxDrop: nat, maxDimensionDrop: nat, maxSpread: nat, maxDimensionSpread: nat,
    minimums: map<nat, nat>, critical: set<string>)

  datatype Status = Pass | Regression | Incomparable | Incomplete | InfrastructureError | Unstable
  datatype Code =
    | VersionNotIsolated | CampaignNotIsolated | RunNotIsolated | RunCountMismatch | CampaignVersionMismatch
    | OwnerMismatch | PackIdMismatch | PackVersionMismatch | ScenarioSetMismatch | ItemsMismatch
    | RuntimePolicyMismatch | ScoringVersionMismatch
    | InfrastructureFailure | InvalidScorecard | AsymmetricCoverage | MinimumCoverage | InvalidModel | DigestMismatch
    | OverallVariance | BaselineVariance | CandidateVariance | CriticalFinding | OverallDrop | DimensionMinimum
    | DimensionDrop
  /** Observed values and thresholds are doubles. */
  datatype Finding = Finding(code: Code, dimension: Option<nat>, observed: Option<int>, threshold: Option<int>)

  /** Means in hundredths, spreads whole; a dimension nobody was graded on has none. */
  datatype Aggregate = Aggregate(overall: int, overallSpread: int, dimensions: seq<Option<int>>,
      spreads: seq<Option<int>>)
  datatype Outcome = Outcome(status: Status, coverage: nat, findings: seq<Finding>, baseline: Option<Aggregate>,
      candidate: Option<Aggregate>)

  datatype Row = Row(scenario: string, runId: Option<string>, scorecard: Option<Scorecard>, model: string)

  /** What validateInput leaves; a stored campaign has at least one scenario. */
  predicate ValidInput(baseline: Cohort, candidate: Cohort, policy: Policy) {
    && 1 <= |baseline.campaigns| <= 20 && 1 <= |candidate.campaigns| <= 20
    && 1 <= policy.required <= 20 && 1 <= policy.minCoverage <= 10_000 && ValidMinimums(policy)
    && (forall i :: 0 <= i < |baseline.campaigns| ==> baseline.campaigns[i].scenarios != [])
    && forall i :: 0 <= i < |candidate.campaigns| ==> candidate.campaigns[i].scenarios != []
  }

  // ---------- lists ----------

  function Flat<A, B>(f: A -> seq<B>, s: seq<A>): seq<B> {
    if s == [] then [] else f(s[0]) + Flat(f, s[1..])
  }

  lemma {:induction false} FlatConcat<A, B>(f: A -> seq<B>, a: seq<A>, b: seq<A>)
    ensures Flat(f, a + b) == Flat(f, a) + Flat(f, b)
  {
    if a == [] {
      assert a + b == b;
    } else {
      assert (a + b)[1..] == a[1..] + b;
      FlatConcat(f, a[1..], b);
    }
  }

  lemma FlatOne<A, B>(f: A -> seq<B>, x: A, rest: seq<A>)
    ensures Flat(f, [x] + rest) == f(x) + Flat(f, rest)
  {
    assert ([x] + rest)[1..] == rest;
  }

  lemma Middle<B>(a: seq<B>, x: seq<B>, b: seq<B>)
    ensures multiset(a + (x + b)) == multiset(x) + multiset(a + b)
  {
    assert multiset(a + (x + b)) == multiset(a) + (multiset(x) + multiset(b));
    assert multiset(a + b) == multiset(a) + multiset(b);
  }

  lemma FlatAround<A, B>(f: A -> seq<B>, a: seq<A>, x: A, b: seq<A>)
    ensures Flat(f, a + ([x] + b)) == Flat(f, a) + (f(x) + Flat(f, b))
  {
    FlatConcat(f, a, [x] + b);
    FlatOne(f, x, b);
  }

  lemma FlatMiddle<A, B>(f: A -> seq<B>, a: seq<A>, x: A, b: seq<A>)
    ensures multiset(Flat(f, a + ([x] + b))) == multiset(f(x)) + multiset(Flat(f, a + b))
  {
    FlatAround(f, a, x, b);
    FlatConcat(f, a, b);
    Middle(Flat(f, a), f(x), Flat(f, b));
  }

  lemma Around<T>(s: seq<T>, i: nat)
    requires i < |s|
    ensures s == s[..i] + ([s[i]] + s[i + 1..])
  {
  }

  lemma FlatWithout<A, B>(f: A -> seq<B>, s: seq<A>, i: nat)
    requires i < |s|
    ensures multiset(Flat(f, s)) == multiset(f(s[i])) + multiset(Flat(f, Without(s, i)))
  {
    Around(s, i);
    FlatMiddle(f, s[..i], s[i], s[i + 1..]);
  }

  lemma FlatAppend<A, B>(f: A -> seq<B>, s: seq<A>, x: A)
    ensures Flat(f, s + [x]) == Flat(f, s) + f(x)
  {
    FlatConcat(f, s, [x]);
    assert [x][1..] == [];
  }

  lemma FlatSnoc<A, B>(f: A -> seq<B>, s: seq<A>, n: nat)
    requires n < |s|
    ensures Flat(f, s[..n + 1]) == Flat(f, s[..n]) + f(s[n])
  {
    assert s[..n + 1] == s[..n] + [s[n]];
    FlatAppend(f, s[..n], s[n]);
  }

  /** Permuting a list permutes what it flattens to. */
  lemma {:induction false} FlatIgnoresOrder<A, B>(f: A -> seq<B>, a: seq<A>, b: seq<A>)
    requires multiset(a) == multiset(b)
    ensures multiset(Flat(f, a)) == multiset(Flat(f, b))
  {
    if a == [] {
      assert |multiset(b)| == 0;
    } else {
      assert a[0] in multiset(b);
      var i :| 0 <= i < |b| && b[i] == a[0];
      WithoutOne(a, 0);
      WithoutOne(b, i);
      FlatIgnoresOrder(f, Without(a, 0), Without(b, i));
      FlatWithout(f, a, 0);
      FlatWithout(f, b, i);
    }
  }

  /** Flattening the same list by pointwise permuted functions gives permuted lists. */
  lemma {:induction false} FlatPointwise<A, B>(f: A -> seq<B>, g: A -> seq<B>, s: seq<A>)
    requires forall x :: x in s ==> multiset(f(x)) == multiset(g(x))
    ensures multiset(Flat(f, s)) == multiset(Flat(g, s))
  {
    if s != [] { FlatPointwise(f, g, s[1..]); }
  }

  lemma {:induction false} FlatSame<A, B>(f: A -> seq<B>, g: A -> seq<B>, s: seq<A>)
    requires forall x :: x in s ==> f(x) == g(x)
    ensures Flat(f, s) == Flat(g, s)
  {
    if s != [] { FlatSame(f, g, s[1..]); }
  }

  lemma {:induction false} FlatEmpty<A, B>(f: A -> seq<B>, s: seq<A>)
    ensures Flat(f, s) == [] <==> forall x :: x in s ==> f(x) == []
  {
    if s != [] {
      FlatEmpty(f, s[1..]);
      assert s == [s[0]] + s[1..];
    }
  }

  /** new Set(s).size === s.length */
  predicate NoRepeats<T(==)>(s: seq<T>) {
    |set x | x in s| == |s|
  }

  // ---------- rows ----------

  function RowOf(c: Campaign, i: Item): seq<Row> {
    if i.state != ItemFinalized then []
    else [Row(i.scenario, i.runId, i.scorecard, if i.model.Some? then i.model.value else c.model)]
  }

  function RowsIn(c: Campaign): Item -> seq<Row> {
    (i: Item) => RowOf(c, i)
  }

  function CampaignRows(c: Campaign): seq<Row> {
    Flat(RowsIn(c), c.items)
  }

  function Rows(cs: seq<Campaign>): seq<Row> {
    Flat(CampaignRows, cs)
  }

  function Pick(id: string, r: Row): seq<Row> {
    if r.scenario == id then [r] else []
  }

  function Picks(id: string): Row -> seq<Row> {
    (r: Row) => Pick(id, r)
  }

  function Group(rows: seq<Row>, id: string): seq<Row> {
    Flat(Picks(id), rows)
  }

  lemma {:induction false} FlatMember<A, B>(f: A -> seq<B>, s: seq<A>, y: B)
    ensures y in Flat(f, s) <==> exists x :: x in s && y in f(x)
  {
    if s != [] {
      FlatMember(f, s[1..], y);
      assert s == [s[0]] + s[1..];
    }
  }

  predicate RowValid(version: string, r: Row) {
    r.runId.Some? && r.scorecard.Some? && r.scorecard.value.version == version
  }

  predicate AllValid(version: string, rows: seq<Row>) {
    forall r :: r in rows ==> RowValid(version, r)
  }

  lemma GroupIgnoresOrder(a: seq<Row>, b: seq<Row>, id: string)
    requires multiset(a) == multiset(b)
    ensures multiset(Group(a, id)) == multiset(Group(b, id)) && |Group(a, id)| == |Group(b, id)|
  {
    FlatIgnoresOrder(Picks(id), a, b);
    PermutedMembers(Group(a, id), Group(b, id));
  }

  /** A map files rows under their scenarios, in order. */
  ghost predicate Filed(result: map<string, seq<Row>>, rows: seq<Row>) {
    forall id :: (if id in result then result[id] else []) == Group(rows, id)
  }

  lemma FiledOneMore(result: map<string, seq<Row>>, rows: seq<Row>, row: Row)
    requires Filed(result, rows)
    ensures var id := row.scenario;
            Filed(result[id := (if id in result then result[id] else []) + [row]], rows + [row])
  {
    forall id ensures Group(rows + [row], id) == Group(rows, id) + Pick(id, row) {
      FlatAppend(Picks(id), rows, row);
    }
  }

  lemma InvalidRow(c: Campaign, version: string, i: nat)
    requires i < |c.items| && c.items[i].state == ItemFinalized && !RowValid(version, RowOf(c, c.items[i])[0])
    ensures !AllValid(version, CampaignRows(c))
  {
    var row := RowOf(c, c.items[i])[0];
    FlatMember(RowsIn(c), c.items, row);
    assert c.items[i] in c.items && row in RowsIn(c)(c.items[i]);
  }

  lemma InvalidCampaign(cs: seq<Campaign>, version: string, i: nat)
    requires i < |cs| && !AllValid(version, CampaignRows(cs[i]))
    ensures !AllValid(version, Rows(cs))
  {
    var row :| row in CampaignRows(cs[i]) && !RowValid(version, row);
    FlatMember(CampaignRows, cs, row);
    assert cs[i] in cs;
  }

  /** The items of one campaign; None where finalizedRow throws. */
  method FileItems(c: Campaign, version: string, prior: map<string, seq<Row>>, ghost rows: seq<Row>)
      returns (result: Option<map<string, seq<Row>>>)
    requires Filed(prior, rows)
    ensures result.Some? <==> AllValid(version, CampaignRows(c))
    ensures result.Some? ==> Filed(result.value, rows + CampaignRows(c))
  {
    var filed := prior;
    var i := 0;
    ghost var done := [];
    assert rows + done == rows;
    while i < |c.items|
      invariant 0 <= i <= |c.items| && done == Flat(RowsIn(c), c.items[..i])
      invariant AllValid(version, done) && Filed(filed, rows + done)
    {
      FlatSnoc(RowsIn(c), c.items, i);
      if c.items[i].state == ItemFinalized {
        var row := RowOf(c, c.items[i])[0];
        if !RowValid(version, row) {
          InvalidRow(c, version, i);
          return None;
        }
        FiledOneMore(filed, rows + done, row);
        assert rows + (done + [row]) == rows + done + [row];
        filed := filed[row.scenario := (if row.scenario in filed then filed[row.scenario] else []) + [row]];
        done := done + [row];
      }
      i := i + 1;
    }
    assert c.items[..|c.items|] == c.items;
    return Some(filed);
  }

  /** The grouping loop: every FINALIZED item's row, in order, under its scenario; None where a row is invalid. */
  method FinalizedByScenario(cs: seq<Campaign>, version: string) returns (result: Option<map<string, seq<Row>>>)
    ensures result.Some? <==> AllValid(version, Rows(cs))
    ensures result.Some? ==> Filed(result.value, Rows(cs))
  {
    var filed: map<string, seq<Row>> := map[];
    var i := 0;
    ghost var done := [];
    while i < |cs|
      invariant 0 <= i <= |cs| && done == Rows(cs[..i])
      invariant AllValid(version, done) && Filed(filed, done)
    {
      FlatSnoc(CampaignRows, cs, i);
      var more := FileItems(cs[i], version, filed, done);
      if more.None? {
        InvalidCampaign(cs, version, i);
        return None;
      }
      filed := more.value;
      done := done + CampaignRows(cs[i]);
      i := i + 1;
    }
    assert cs[..|cs|] == cs;
    return Some(filed);
  }

  // ---------- aggregation ----------

  function OverallOf(r: Row): seq<int> {
    if r.scorecard.Some? then [r.scorecard.value.overall] else []
  }

  function OfDimension(d: nat, row: DimensionRow): seq<DimensionRow> {
    if row.dimension == Some(d) then [row] else []
  }

  function Matching(c: Scorecard, d: nat): seq<DimensionRow> {
    Flat((row: DimensionRow) => OfDimension(d, row), c.rows)
  }

  /** None for a grade that gives no points. */
  function GradePoints(g: Grade): Option<int> {
    match g
    case Excellent => Some(100)
    case Good => Some(80)
    case Mixed => Some(60)
    case Poor => Some(30)
    case Fail => Some(0)
    case _ => None
  }

  function PointsOf(d: nat, r: Row): seq<int> {
    if r.scorecard.None? || |Matching(r.scorecard.value, d)| != 1 then []
    else
      var points := GradePoints(Matching(r.scorecard.value, d)[0].grade);
      if points.Some? then [points.value] else []
  }

  function PointsFor(d: nat): Row -> seq<int> {
    (r: Row) => PointsOf(d, r)
  }

  predicate CardValid(c: Scorecard) {
    && c.wellFormed && 0 <= c.overall <= 100 && |c.rows| == 6
    && forall d :: d in DIMENSIONS ==> |Matching(c, d)| == 1 && Matching(c, d)[0].grade != UnknownGrade
  }

  predicate CardsValid(rows: seq<Row>) {
    forall r :: r in rows ==> r.scorecard.Some? && CardValid(r.scorecard.value)
  }

  function Mean(s: seq<int>): int
    requires s != []
  {
    Sum(s) * 100 / |s|
  }

  function SpreadOf(s: seq<int>): seq<int> {
    if s == [] then [] else [Max(s) - Min(s)]
  }

  function SpreadIn(f: Row -> seq<int>, rows: seq<Row>): string -> seq<int> {
    (id: string) => SpreadOf(Flat(f, Group(rows, id)))
  }

  /** The spreads of the scenarios with any value of one kind. */
  function Spreads(f: Row -> seq<int>, rows: seq<Row>, ids: seq<string>): seq<int> {
    Flat(SpreadIn(f, rows), ids)
  }

  function MaybeMean(s: seq<int>): Option<int> {
    if s == [] then None else Some(Mean(s))
  }

  function MaybeMax(s: seq<int>): Option<int> {
    if s == [] then None else Some(Max(s))
  }

  function DimensionMean(rows: seq<Row>, d: nat): Option<int> {
    MaybeMean(Flat(PointsFor(d), rows))
  }

  function DimensionSpread(rows: seq<Row>, ids: seq<string>, d: nat): Option<int> {
    MaybeMax(Spreads(PointsFor(d), rows, ids))
  }

  function DimensionMeans(rows: seq<Row>): (s: seq<Option<int>>)
    ensures |s| == 6
  {
    seq(6, d requires 0 <= d < 6 => DimensionMean(rows, d))
  }

  function DimensionSpreads(rows: seq<Row>, ids: seq<string>): (s: seq<Option<int>>)
    ensures |s| == 6
  {
    seq(6, d requires 0 <= d < 6 => DimensionSpread(rows, ids, d))
  }

  /** None where the source throws. */
  function AggregateOf(rows: seq<Row>, ids: seq<string>): (r: Option<Aggregate>)
    ensures r.Some? ==> |r.value.dimensions| == |r.value.spreads| == 6
  {
    if !CardsValid(rows) || Flat(OverallOf, rows) == [] || Spreads(OverallOf, rows, ids) == [] then None
    else
      Some(Aggregate(
        Mean(Flat(OverallOf, rows)), Max(Spreads(OverallOf, rows, ids)),
        DimensionMeans(rows), DimensionSpreads(rows, ids)))
  }

  lemma SpreadIgnoresOrder(a: seq<int>, b: seq<int>)
    requires multiset(a) == multiset(b)
    ensures SpreadOf(a) == SpreadOf(b)
  {
    PermutedMembers(a, b);
    if a != [] {
      assert Max(a) in b && Max(b) in a && Min(a) in b && Min(b) in a;
    }
  }

  lemma SpreadsIgnoreOrder(f: Row -> seq<int>, a: seq<Row>, b: seq<Row>, ids: seq<string>)
    requires multiset(a) == multiset(b)
    ensures Spreads(f, a, ids) == Spreads(f, b, ids)
  {
    forall id | id in ids ensures SpreadOf(Flat(f, Group(a, id))) == SpreadOf(Flat(f, Group(b, id))) {
      GroupIgnoresOrder(a, b, id);
      FlatIgnoresOrder(f, Group(a, id), Group(b, id));
      SpreadIgnoresOrder(Flat(f, Group(a, id)), Flat(f, Group(b, id)));
    }
    FlatSame(SpreadIn(f, a), SpreadIn(f, b), ids);
  }

  lemma MeanIgnoresOrder(f: Row -> seq<int>, a: seq<Row>, b: seq<Row>)
    requires multiset(a) == multiset(b)
    ensures MaybeMean(Flat(f, a)) == MaybeMean(Flat(f, b))
  {
    FlatIgnoresOrder(f, a, b);
    PermutedMembers(Flat(f, a), Flat(f, b));
    SumIgnoresOrder(Flat(f, a), Flat(f, b));
  }

  lemma DimensionsIgnoreOrder(a: seq<Row>, b: seq<Row>, ids: seq<string>)
    requires multiset(a) == multiset(b)
    ensures DimensionMeans(a) == DimensionMeans(b) && DimensionSpreads(a, ids) == DimensionSpreads(b, ids)
  {
    forall d: nat | d < 6
      ensures DimensionMean(a, d) == DimensionMean(b, d) && DimensionSpread(a, ids, d) == DimensionSpread(b, ids, d)
    {
      MeanIgnoresOrder(PointsFor(d), a, b);
      SpreadsIgnoreOrder(PointsFor(d), a, b, ids);
    }
  }

  lemma CardsIgnoreOrder(a: seq<Row>, b: seq<Row>)
    requires multiset(a) == multiset(b)
    ensures CardsValid(a) == CardsValid(b)
  {
    PermutedMembers(a, b);
  }

  /** The aggregate of a set of runs does not depend on the order they are listed in. */
  lemma AggregateIgnoresOrder(a: seq<Row>, b: seq<Row>, ids: seq<string>)
    requires multiset(a) == multiset(b)
    ensures AggregateOf(a, ids) == AggregateOf(b, ids)
  {
    CardsIgnoreOrder(a, b);
    MeanIgnoresOrder(OverallOf, a, b);
    SpreadsIgnoreOrder(OverallOf, a, b, ids);
    DimensionsIgnoreOrder(a, b, ids);
  }

  // ---------- findings ----------

  function When(c: bool, f: Finding): seq<Finding> {
    if c then [f] else []
  }

  function SpreadFinding(side: Code, a: Aggregate, p: Policy, d: nat): seq<Finding> {
    if d < |a.spreads| && a.spreads[d].Some? && a.spreads[d].value > p.maxDimensionSpread
    then [Finding(side, Some(d), Some(Whole(a.spreads[d].value)), Some(Whole(p.maxDimensionSpread)))] else []
  }

  function SpreadsOf(side: Code, a: Aggregate, p: Policy): nat -> seq<Finding> {
    (d: nat) => SpreadFinding(side, a, p, d)
  }

  function OverallSpread(a: Aggregate, p: Policy): Finding {
    Finding(OverallVariance, None, Some(Whole(a.overallSpread)), Some(Whole(p.maxSpread)))
  }

  function SideVariance(side: Code, a: Aggregate, p: Policy): seq<Finding> {
    When(a.overallSpread > p.maxSpread, OverallSpread(a, p)) + Flat(SpreadsOf(side, a, p), DIMENSIONS)
  }

  function Variance(b: Aggregate, c: Aggregate, p: Policy): seq<Finding> {
    SideVariance(BaselineVariance, b, p) + SideVariance(CandidateVariance, c, p)
  }

  predicate TooLow(c: Aggregate, p: Policy, d: nat) {
    d in p.minimums && (d >= |c.dimensions| || c.dimensions[d].None?
      || Score(c.dimensions[d].value) < Whole(p.minimums[d]))
  }

  function MinimumFinding(c: Aggregate, p: Policy, d: nat): Finding
    requires d in p.minimums
  {
    var observed := if d < |c.dimensions| && c.dimensions[d].Some? then Some(Score(c.dimensions[d].value)) else None;
    Finding(DimensionMinimum, Some(d), observed, Some(Whole(p.minimums[d])))
  }

  function BelowMinimum(c: Aggregate, p: Policy, d: nat): seq<Finding> {
    if TooLow(c, p, d) then [MinimumFinding(c, p, d)] else []
  }

  predicate BothScored(b: Aggregate, c: Aggregate, d: nat) {
    d < |b.dimensions| && d < |c.dimensions| && b.dimensions[d].Some? && c.dimensions[d].Some?
  }

  /** The drop of a dimension, as it is computed. */
  function Drop(b: Aggregate, c: Aggregate, d: nat): int
    requires BothScored(b, c, d)
  {
    Minus(b.dimensions[d].value, c.dimensions[d].value)
  }

  function Dropped(b: Aggregate, c: Aggregate, p: Policy, d: nat): seq<Finding> {
    if BothScored(b, c, d) && Drop(b, c, d) > Whole(p.maxDimensionDrop)
    then [Finding(DimensionDrop, Some(d), Some(Drop(b, c, d)), Some(Whole(p.maxDimensionDrop)))] else []
  }

  function OverallDropped(b: Aggregate, c: Aggregate, p: Policy): Finding {
    Finding(OverallDrop, None, Some(Minus(b.overall, c.overall)), Some(Whole(p.maxDrop)))
  }

  function CodesOf(r: Row): seq<string> {
    if r.scorecard.Some? then r.scorecard.value.findings else []
  }

  /** The critical codes found in the candidate's runs. */
  function CriticalCodes(rows: seq<Row>, p: Policy): set<string> {
    set code | code in Flat(CodesOf, rows) && code in p.critical
  }

  const CRITICAL: Finding := Finding(CriticalFinding, None, None, None)

  function Repeat(f: Finding, n: nat): seq<Finding> {
    seq(n, _ => f)
  }

  function DropsOf(b: Aggregate, c: Aggregate, p: Policy): nat -> seq<Finding> {
    (d: nat) => BelowMinimum(c, p, d) + Dropped(b, c, p, d)
  }

  function Regressions(rows: seq<Row>, b: Aggregate, c: Aggregate, p: Policy): seq<Finding> {
    Repeat(CRITICAL, |CriticalCodes(rows, p)|)
    + When(Minus(b.overall, c.overall) > Whole(p.maxDrop), OverallDropped(b, c, p))
    + Flat(DropsOf(b, c, p), DIMENSIONS)
  }

  // ---------- the comparison ----------

  function IdsOf(c: Campaign): seq<string> {
    [c.id]
  }

  function ItemRunIds(i: Item): seq<string> {
    i.runIds
  }

  function RunIdsOf(c: Campaign): seq<string> {
    Flat(ItemRunIds, c.items)
  }

  function ScenarioIds(c: Campaign): (ids: seq<string>)
    ensures |ids| == |c.scenarios|
  {
    seq(|c.scenarios|, i requires 0 <= i < |c.scenarios| => c.scenarios[i].id)
  }

  function ItemScenarios(c: Campaign): seq<string> {
    seq(|c.items|, i requires 0 <= i < |c.items| => c.items[i].scenario)
  }

  predicate ItemsMatch(c: Campaign) {
    NoRepeats(ItemScenarios(c)) && multiset(ItemScenarios(c)) == multiset(ScenarioIds(c))
  }

  predicate Broken(c: Campaign) {
    c.failed || exists i :: 0 <= i < |c.items| && c.items[i].state == ItemFailed
  }

  function OwnerOf(x: Campaign): string {
    x.owner
  }

  function PackIdOf(x: Campaign): string {
    x.packId
  }

  function PackVersionOf(x: Campaign): string {
    x.packVersion
  }

  function ScenariosOf(x: Campaign): seq<Scenario> {
    x.scenarios
  }

  function GenerationOf(x: Campaign): string {
    x.generation
  }

  function RubricOf(x: Campaign): string {
    x.rubric
  }

  /** The campaign agrees with the reference on a field. */
  predicate Agree<T(==)>(f: Campaign -> T, reference: Campaign, all: seq<Campaign>) {
    forall c :: c in all ==> f(c) == f(reference)
  }

  function FirstMismatch(b: Cohort, c: Cohort, p: Policy): Option<Code>
    requires b.campaigns != []
  {
    var all, reference := b.campaigns + c.campaigns, b.campaigns[0];
    if |b.campaigns| != p.required || |c.campaigns| != p.required then Some(RunCountMismatch)
    else if !((forall x :: x in b.campaigns ==> x.version == b.version)
      && (forall x :: x in c.campaigns ==> x.version == c.version)) then Some(CampaignVersionMismatch)
    else if !Agree(OwnerOf, reference, all) then Some(OwnerMismatch)
    else if !Agree(PackIdOf, reference, all) then Some(PackIdMismatch)
    else if !Agree(PackVersionOf, reference, all) then Some(PackVersionMismatch)
    else if !Agree(ScenariosOf, reference, all) then Some(ScenarioSetMismatch)
    else if !(forall x :: x in all ==> ItemsMatch(x)) then Some(ItemsMismatch)
    else if !Agree(GenerationOf, reference, all) then Some(RuntimePolicyMismatch)
    else if !Agree(RubricOf, reference, all) then Some(ScoringVersionMismatch)
    else None
  }

  function Isolation(b: Cohort, c: Cohort): Option<Code> {
    if b.version == c.version then Some(VersionNotIsolated)
    else if !NoRepeats(Flat(IdsOf, b.campaigns + c.campaigns)) then Some(CampaignNotIsolated)
    else if !NoRepeats(Flat(RunIdsOf, b.campaigns + c.campaigns)) then Some(RunNotIsolated)
    else None
  }

  function Terminal(status: Status, coverage: nat, code: Code): Outcome {
    Outcome(status, coverage, [Finding(code, None, None, None)], None, None)
  }

  function IfCovered(rows: seq<Row>, required: nat): string -> seq<string> {
    (id: string) => if |Group(rows, id)| == required then [id] else []
  }

  function Covered(rows: seq<Row>, ids: seq<string>, required: nat): seq<string> {
    Flat(IfCovered(rows, required), ids)
  }

  function GroupIn(rows: seq<Row>): string -> seq<Row> {
    (id: string) => Group(rows, id)
  }

  function RowsOf(rows: seq<Row>, ids: seq<string>): seq<Row> {
    Flat(GroupIn(rows), ids)
  }

  function DigestOf(r: Row): Option<string> {
    if r.scorecard.Some? then r.scorecard.value.digest else None
  }

  predicate OneDigest(rows: seq<Row>) {
    rows != [] && forall r, q :: r in rows && q in rows ==> DigestOf(r).Some? && DigestOf(r) == DigestOf(q)
  }

  function Verdict(b: Option<Aggregate>, c: Option<Aggregate>, rows: seq<Row>, coverage: nat, p: Policy): Outcome {
    if b.None? || c.None? then Terminal(InfrastructureError, coverage, InvalidScorecard)
    else
      var variance := Variance(b.value, c.value, p);
      if variance != [] then Outcome(Unstable, coverage, variance, b, c)
      else
        var findings := Regressions(rows, b.value, c.value, p);
        Outcome(if findings == [] then Pass else Regression, coverage, findings, b, c)
  }

  predicate ModelMissing(rows: seq<Row>) {
    exists r :: r in rows && r.model == ""
  }

  predicate DigestsDiffer(rows: seq<Row>, ids: seq<string>) {
    exists id :: id in ids && !OneDigest(Group(rows, id))
  }

  /** From the rows of the covered scenarios on. */
  function Judge(b: seq<Row>, c: seq<Row>, common: seq<string>, coverage: nat, p: Policy): Outcome {
    if ModelMissing(b + c) then Terminal(Incomparable, coverage, InvalidModel)
    else if DigestsDiffer(b + c, common) then Terminal(Incomparable, coverage, DigestMismatch)
    else Verdict(AggregateOf(b, common), AggregateOf(c, common), c, coverage, p)
  }

  function JudgeCovered(rowsB: seq<Row>, rowsC: seq<Row>, common: seq<string>, coverage: nat, p: Policy): Outcome {
    Judge(RowsOf(rowsB, common), RowsOf(rowsC, common), common, coverage, p)
  }

  function IfIn(b: seq<string>): string -> seq<string> {
    (id: string) => if id in b then [id] else []
  }

  function InBoth(a: seq<string>, b: seq<string>): seq<string> {
    Flat(IfIn(b), a)
  }

  function Compare(rowsB: seq<Row>, rowsC: seq<Row>, ids: seq<string>, p: Policy): Outcome
    requires ids != []
  {
    CompareCovered(rowsB, rowsC, Covered(rowsB, ids, p.required), Covered(rowsC, ids, p.required), |ids|, p)
  }

  function CompareCovered(rowsB: seq<Row>, rowsC: seq<Row>, coveredB: seq<string>, coveredC: seq<string>, n: nat,
      p: Policy): Outcome
    requires n > 0
  {
    var common := InBoth(coveredB, coveredC);
    var coverage := |common| * 10_000 / n;
    if coveredB != coveredC then Terminal(Incomplete, coverage, AsymmetricCoverage)
    else if coverage < p.minCoverage then Terminal(Incomplete, coverage, MinimumCoverage)
    else JudgeCovered(rowsB, rowsC, common, coverage, p)
  }

  predicate AnyBroken(all: seq<Campaign>) {
    exists x :: x in all && Broken(x)
  }

  /** The outcomes that come before any coverage is computed. */
  function Early(b: Cohort, c: Cohort, p: Policy): Option<Outcome>
    requires b.campaigns != []
  {
    if Isolation(b, c).Some? then Some(Terminal(Incomparable, 0, Isolation(b, c).value))
    else if FirstMismatch(b, c, p).Some? then Some(Terminal(Incomparable, 0, FirstMismatch(b, c, p).value))
    else if AnyBroken(b.campaigns + c.campaigns) then Some(Terminal(InfrastructureError, 0, InfrastructureFailure))
    else if !AllValid(b.version, Rows(b.campaigns)) || !AllValid(c.version, Rows(c.campaigns))
      then Some(Terminal(InfrastructureError, 0, InvalidScorecard))
    else None
  }

  function Evaluate(b: Cohort, c: Cohort, p: Policy): Outcome
    requires ValidInput(b, c, p)
  {
    if Early(b, c, p).Some? then Early(b, c, p).value
    else Compare(Rows(b.campaigns), Rows(c.campaigns), ScenarioIds(b.campaigns[0]), p)
  }

  // ---------- order does not matter ----------

  lemma CoveredIgnoresOrder(a: seq<Row>, b: seq<Row>, ids: seq<string>, required: nat)
    requires multiset(a) == multiset(b)
    ensures Covered(a, ids, required) == Covered(b, ids, required)
  {
    forall id | id in ids ensures |Group(a, id)| == |Group(b, id)| { GroupIgnoresOrder(a, b, id); }
    FlatSame(IfCovered(a, required), IfCovered(b, required), ids);
  }

  lemma RowsOfIgnoresOrder(a: seq<Row>, b: seq<Row>, ids: seq<string>)
    requires multiset(a) == multiset(b)
    ensures multiset(RowsOf(a, ids)) == multiset(RowsOf(b, ids))
  {
    forall id | id in ids ensures multiset(Group(a, id)) == multiset(Group(b, id)) { GroupIgnoresOrder(a, b, id); }
    FlatPointwise(GroupIn(a), GroupIn(b), ids);
  }

  lemma DigestsIgnoreOrder(a: seq<Row>, b: seq<Row>, id: string)
    requires multiset(a) == multiset(b)
    ensures OneDigest(Group(a, id)) == OneDigest(Group(b, id))
  {
    GroupIgnoresOrder(a, b, id);
    PermutedMembers(Group(a, id), Group(b, id));
  }

  lemma RegressionsIgnoreOrder(a: seq<Row>, b: seq<Row>, x: Aggregate, y: Aggregate, p: Policy)
    requires multiset(a) == multiset(b)
    ensures Regressions(a, x, y, p) == Regressions(b, x, y, p)
  {
    FlatIgnoresOrder(CodesOf, a, b);
    PermutedMembers(Flat(CodesOf, a), Flat(CodesOf, b));
    assert CriticalCodes(a, p) == CriticalCodes(b, p);
  }

  lemma VerdictIgnoresOrder(b: Option<Aggregate>, c: Option<Aggregate>, rows: seq<Row>, rows': seq<Row>, coverage: nat,
      p: Policy)
    requires multiset(rows) == multiset(rows')
    ensures Verdict(b, c, rows, coverage, p) == Verdict(b, c, rows', coverage, p)
  {
    if b.Some? && c.Some? { RegressionsIgnoreOrder(rows, rows', b.value, c.value, p); }
  }

  lemma ChecksIgnoreOrder(a: seq<Row>, b: seq<Row>, ids: seq<string>)
    requires multiset(a) == multiset(b)
    ensures ModelMissing(a) == ModelMissing(b) && DigestsDiffer(a, ids) == DigestsDiffer(b, ids)
  {
    PermutedMembers(a, b);
    forall id ensures OneDigest(Group(a, id)) == OneDigest(Group(b, id)) { DigestsIgnoreOrder(a, b, id); }
  }

  lemma JudgeIgnoresOrder(b: seq<Row>, b': seq<Row>, c: seq<Row>, c': seq<Row>, common: seq<string>, coverage: nat,
      p: Policy)
    requires multiset(b) == multiset(b') && multiset(c) == multiset(c')
    ensures Judge(b, c, common, coverage, p) == Judge(b', c', common, coverage, p)
  {
    assert multiset(b + c) == multiset(b' + c');
    ChecksIgnoreOrder(b + c, b' + c', common);
    AggregateIgnoresOrder(b, b', common);
    AggregateIgnoresOrder(c, c', common);
    VerdictIgnoresOrder(AggregateOf(b, common), AggregateOf(c, common), c, c', coverage, p);
  }

  lemma JudgeCoveredIgnoresOrder(b: seq<Row>, b': seq<Row>, c: seq<Row>, c': seq<Row>, common: seq<string>,
      coverage: nat, p: Policy)
    requires multiset(b) == multiset(b') && multiset(c) == multiset(c')
    ensures JudgeCovered(b, c, common, coverage, p) == JudgeCovered(b', c', common, coverage, p)
  {
    RowsOfIgnoresOrder(b, b', common);
    RowsOfIgnoresOrder(c, c', common);
    JudgeIgnoresOrder(RowsOf(b, common), RowsOf(b', common), RowsOf(c, common), RowsOf(c', common), common, coverage,
      p);
  }

  lemma CompareCoveredIgnoresOrder(b: seq<Row>, b': seq<Row>, c: seq<Row>, c': seq<Row>, coveredB: seq<string>,
      coveredC: seq<string>, n: nat, p: Policy)
    requires multiset(b) == multiset(b') && multiset(c) == multiset(c') && n > 0
    ensures CompareCovered(b, c, coveredB, coveredC, n, p) == CompareCovered(b', c', coveredB, coveredC, n, p)
  {
    var common := InBoth(coveredB, coveredC);
    JudgeCoveredIgnoresOrder(b, b', c, c', common, |common| * 10_000 / n, p);
  }

  lemma CompareIgnoresOrder(b: seq<Row>, b': seq<Row>, c: seq<Row>, c': seq<Row>, ids: seq<string>, p: Policy)
    requires multiset(b) == multiset(b') && multiset(c) == multiset(c') && ids != []
    ensures Compare(b, c, ids, p) == Compare(b', c', ids, p)
  {
    CoveredIgnoresOrder(b, b', ids, p.required);
    CoveredIgnoresOrder(c, c', ids, p.required);
    CompareCoveredIgnoresOrder(b, b', c, c', Covered(b, ids, p.required), Covered(c, ids, p.required), |ids|, p);
  }

  lemma RepeatsIgnoreOrder<T>(a: seq<T>, b: seq<T>)
    requires multiset(a) == multiset(b)
    ensures NoRepeats(a) == NoRepeats(b)
  {
    PermutedMembers(a, b);
    assert (set x | x in a) == (set x | x in b);
  }

  lemma IsolationIgnoresOrder(b: Cohort, b': Cohort, c: Cohort, c': Cohort)
    requires b.version == b'.version && c.version == c'.version
    requires multiset(b.campaigns) == multiset(b'.campaigns) && multiset(c.campaigns) == multiset(c'.campaigns)
    ensures Isolation(b, c) == Isolation(b', c')
  {
    var all, all' := b.campaigns + c.campaigns, b'.campaigns + c'.campaigns;
    FlatIgnoresOrder(IdsOf, all, all');
    FlatIgnoresOrder(RunIdsOf, all, all');
    RepeatsIgnoreOrder(Flat(IdsOf, all), Flat(IdsOf, all'));
    RepeatsIgnoreOrder(Flat(RunIdsOf, all), Flat(RunIdsOf, all'));
  }

  /** Any campaign may serve as the reference. */
  lemma AgreeIgnoresOrder<T>(f: Campaign -> T, r: Campaign, r': Campaign, all: seq<Campaign>, all': seq<Campaign>)
    requires r in all && r' in all' && forall x :: x in all <==> x in all'
    ensures Agree(f, r, all) == Agree(f, r', all')
  {
    if Agree(f, r, all) { assert f(r') == f(r); }
    if Agree(f, r', all') { assert f(r) == f(r'); }
  }

  lemma MismatchIgnoresOrder(b: Cohort, b': Cohort, c: Cohort, c': Cohort, p: Policy)
    requires b.version == b'.version && c.version == c'.version && b.campaigns != [] && b'.campaigns != []
    requires |b.campaigns| == |b'.campaigns| && |c.campaigns| == |c'.campaigns|
    requires forall x :: x in b.campaigns <==> x in b'.campaigns
    requires forall x :: x in c.campaigns <==> x in c'.campaigns
    ensures FirstMismatch(b, c, p) == FirstMismatch(b', c', p)
  {
    var all, all', r, r' := b.campaigns + c.campaigns, b'.campaigns + c'.campaigns, b.campaigns[0], b'.campaigns[0];
    assert r in all && r' in all' && forall x :: x in all <==> x in all';
    AgreeIgnoresOrder(OwnerOf, r, r', all, all');
    AgreeIgnoresOrder(PackIdOf, r, r', all, all');
    AgreeIgnoresOrder(PackVersionOf, r, r', all, all');
    AgreeIgnoresOrder(ScenariosOf, r, r', all, all');
    AgreeIgnoresOrder(GenerationOf, r, r', all, all');
    AgreeIgnoresOrder(RubricOf, r, r', all, all');
  }

  lemma SameScenarios(b: Cohort, c: Cohort, p: Policy, x: Campaign)
    requires b.campaigns != [] && FirstMismatch(b, c, p) == None && x in b.campaigns
    ensures x.scenarios == b.campaigns[0].scenarios
  {
    assert Agree(ScenariosOf, b.campaigns[0], b.campaigns + c.campaigns);
    assert x in b.campaigns + c.campaigns;
  }

  lemma EarlyIgnoresOrder(b: Cohort, b': Cohort, c: Cohort, c': Cohort, p: Policy)
    requires b.version == b'.version && c.version == c'.version && b.campaigns != [] && b'.campaigns != []
    requires multiset(b.campaigns) == multiset(b'.campaigns) && multiset(c.campaigns) == multiset(c'.campaigns)
    requires multiset(Rows(b.campaigns)) == multiset(Rows(b'.campaigns))
      && multiset(Rows(c.campaigns)) == multiset(Rows(c'.campaigns))
    ensures Early(b, c, p) == Early(b', c', p)
  {
    IsolationIgnoresOrder(b, b', c, c');
    CohortMismatchIgnoresOrder(b, b', c, c', p);
    BrokenIgnoresOrder(b.campaigns, b'.campaigns, c.campaigns, c'.campaigns);
    ValidIgnoresOrder(b.version, Rows(b.campaigns), Rows(b'.campaigns));
    ValidIgnoresOrder(c.version, Rows(c.campaigns), Rows(c'.campaigns));
  }

  lemma CohortMismatchIgnoresOrder(b: Cohort, b': Cohort, c: Cohort, c': Cohort, p: Policy)
    requires b.version == b'.version && c.version == c'.version && b.campaigns != [] && b'.campaigns != []
    requires multiset(b.campaigns) == multiset(b'.campaigns) && multiset(c.campaigns) == multiset(c'.campaigns)
    ensures FirstMismatch(b, c, p) == FirstMismatch(b', c', p)
  {
    PermutedMembers(b.campaigns, b'.campaigns);
    PermutedMembers(c.campaigns, c'.campaigns);
    MismatchIgnoresOrder(b, b', c, c', p);
  }

  lemma BrokenIgnoresOrder(b: seq<Campaign>, b': seq<Campaign>, c: seq<Campaign>, c': seq<Campaign>)
    requires multiset(b) == multiset(b') && multiset(c) == multiset(c')
    ensures AnyBroken(b + c) == AnyBroken(b' + c')
  {
    PermutedMembers(b, b');
    PermutedMembers(c, c');
    assert forall x :: x in b + c <==> x in b' + c';
  }

  lemma ValidIgnoresOrder(version: string, a: seq<Row>, b: seq<Row>)
    requires multiset(a) == multiset(b)
    ensures AllValid(version, a) == AllValid(version, b)
  {
    PermutedMembers(a, b);
  }

  /** Permuting the campaigns inside either cohort changes neither status, coverage, findings nor aggregates. */
  lemma EvaluateIgnoresOrder(b: Cohort, b': Cohort, c: Cohort, c': Cohort, p: Policy)
    requires ValidInput(b, c, p) && ValidInput(b', c', p)
    requires b.version == b'.version && c.version == c'.version
    requires multiset(b.campaigns) == multiset(b'.campaigns) && multiset(c.campaigns) == multiset(c'.campaigns)
    ensures Evaluate(b, c, p) == Evaluate(b', c', p)
  {
    FlatIgnoresOrder(CampaignRows, b.campaigns, b'.campaigns);
    FlatIgnoresOrder(CampaignRows, c.campaigns, c'.campaigns);
    EarlyIgnoresOrder(b, b', c, c', p);
    if Early(b, c, p) == None {
      PermutedMembers(b.campaigns, b'.campaigns);
      SameScenarios(b, c, p, b'.campaigns[0]);
        CompareIgnoresOrder(Rows(b.campaigns), Rows(b'.campaigns), Rows(c.campaigns), Rows(c'.campaigns),
        ScenarioIds(b.campaigns[0]), p);
    }
  }

  // ---------- what the findings mean ----------

  predicate Steady(a: Aggregate, p: Policy) {
    a.overallSpread <= p.maxSpread
    && forall d :: 0 <= d < |a.spreads| && a.spreads[d].Some? ==> a.spreads[d].value <= p.maxDimensionSpread
  }

  /** A finding on the spread of one side. */
  predicate ReportsSpread(side: Code, a: Aggregate, p: Policy, f: Finding)
    requires |a.spreads| == 6
  {
    || (a.overallSpread > p.maxSpread
        && f == Finding(OverallVariance, None, Some(Whole(a.overallSpread)), Some(Whole(p.maxSpread))))
    || ReportsDimensionSpread(side, a, p, f)
  }

  predicate ReportsDimensionSpread(side: Code, a: Aggregate, p: Policy, f: Finding)
    requires |a.spreads| == 6
  {
    && f.code == side && f.dimension.Some? && f.dimension.value < 6
    && a.spreads[f.dimension.value].Some? && a.spreads[f.dimension.value].value > p.maxDimensionSpread
    && f.observed == Some(Whole(a.spreads[f.dimension.value].value))
    && f.threshold == Some(Whole(p.maxDimensionSpread))
  }

  lemma AllDimensions(d: nat)
    ensures d in DIMENSIONS <==> d < 6
  {
    if d < 6 { assert DIMENSIONS[d] == d; }
  }

  lemma SideVarianceMeans(side: Code, a: Aggregate, p: Policy, f: Finding)
    requires |a.spreads| == 6
    ensures f in SideVariance(side, a, p) <==> ReportsSpread(side, a, p, f)
  {
    DimensionSpreadsMean(side, a, p, f);
  }

  lemma DimensionSpreadsMean(side: Code, a: Aggregate, p: Policy, f: Finding)
    requires |a.spreads| == 6
    ensures f in Flat(SpreadsOf(side, a, p), DIMENSIONS) <==> ReportsDimensionSpread(side, a, p, f)
  {
    FlatMember(SpreadsOf(side, a, p), DIMENSIONS, f);
    forall d: nat ensures (d in DIMENSIONS <==> d < 6)
                       && (d < 6 ==> (f in SpreadsOf(side, a, p)(d) <==>
                         ReportsDimensionSpread(side, a, p, f) && f.dimension == Some(d)))
    {
      AllDimensions(d);
    }
  }

  lemma SideVarianceEmpty(side: Code, a: Aggregate, p: Policy)
    requires |a.spreads| == 6
    ensures SideVariance(side, a, p) == [] <==> Steady(a, p)
  {
    FlatEmpty(SpreadsOf(side, a, p), DIMENSIONS);
    forall d: nat ensures d in DIMENSIONS <==> d < 6 { AllDimensions(d); }
  }

  /** One side of the loop at line 316. */
  method SideFailures(side: Code, a: Aggregate, p: Policy, dimensions: seq<nat>) returns (findings: seq<Finding>)
    requires |a.spreads| == 6 && forall d :: d in dimensions ==> d < 6
    ensures findings == When(a.overallSpread > p.maxSpread, OverallSpread(a, p))
      + Flat(SpreadsOf(side, a, p), dimensions)
  {
    findings := if a.overallSpread > p.maxSpread then [OverallSpread(a, p)] else [];
    var ofDimensions: seq<Finding> := [];
    var i := 0;
    while i < |dimensions|
      invariant 0 <= i <= |dimensions| && ofDimensions == Flat(SpreadsOf(side, a, p), dimensions[..i])
    {
      FlatSnoc(SpreadsOf(side, a, p), dimensions, i);
      var d := dimensions[i];
      assert d in dimensions;
      var more := SpreadFailure(side, a, p, d);
      ofDimensions := ofDimensions + more;
      i := i + 1;
    }
    assert dimensions[..|dimensions|] == dimensions;
    findings := findings + ofDimensions;
  }

  method SpreadFailure(side: Code, a: Aggregate, p: Policy, d: nat) returns (findings: seq<Finding>)
    requires |a.spreads| == 6 && d < 6
    ensures findings == SpreadsOf(side, a, p)(d)
  {
    findings := [];
    if a.spreads[d].Some? && a.spreads[d].value > p.maxDimensionSpread {
      findings := [Finding(side, Some(d), Some(Whole(a.spreads[d].value)), Some(Whole(p.maxDimensionSpread)))];
    }
  }

  /** The findings on the spreads of both sides: each names a spread above its bound, each spread above its bound
      has one, and there are none exactly when both sides are steady. */
  method VarianceFailures(b: Aggregate, c: Aggregate, p: Policy) returns (findings: seq<Finding>)
    requires |b.spreads| == |c.spreads| == 6
    ensures findings == [] <==> Steady(b, p) && Steady(c, p)
    ensures forall f :: f in findings <==>
              ReportsSpread(BaselineVariance, b, p, f) || ReportsSpread(CandidateVariance, c, p, f)
    ensures findings == Variance(b, c, p)
  {
    var ofBaseline := SideFailures(BaselineVariance, b, p, DIMENSIONS);
    var ofCandidate := SideFailures(CandidateVariance, c, p, DIMENSIONS);
    findings := ofBaseline + ofCandidate;
    SideVarianceEmpty(BaselineVariance, b, p);
    SideVarianceEmpty(CandidateVariance, c, p);
    forall f
      ensures f in findings <==> ReportsSpread(BaselineVariance, b, p, f) || ReportsSpread(CandidateVariance, c, p, f)
    {
      SideVarianceMeans(BaselineVariance, b, p, f);
      SideVarianceMeans(CandidateVariance, c, p, f);
    }
  }

  // ---------- regressions ----------

  predicate DimensionHeld(b: Aggregate, c: Aggregate, p: Policy, d: nat) {
    (BothScored(b, c, d) ==> Drop(b, c, d) <= Whole(p.maxDimensionDrop)) && !TooLow(c, p, d)
  }

  /** The bounds on drops and minimums, as the code computes them. */
  predicate Held(b: Aggregate, c: Aggregate, p: Policy) {
    && Minus(b.overall, c.overall) <= Whole(p.maxDrop)
    && forall d :: 0 <= d < 6 ==> DimensionHeld(b, c, p, d)
  }

  /** A finding on one dimension. */
  predicate ReportsDimension(b: Aggregate, c: Aggregate, p: Policy, d: nat, f: Finding) {
    || (d in p.minimums && (d >= |c.dimensions| || c.dimensions[d].None?)
        && f == Finding(DimensionMinimum, Some(d), None, Some(Whole(p.minimums[d]))))
    || (d in p.minimums && d < |c.dimensions| && c.dimensions[d].Some?
        && Score(c.dimensions[d].value) < Whole(p.minimums[d])
        && f == Finding(DimensionMinimum, Some(d), Some(Score(c.dimensions[d].value)), Some(Whole(p.minimums[d]))))
    || (BothScored(b, c, d) && Drop(b, c, d) > Whole(p.maxDimensionDrop)
        && f == Finding(DimensionDrop, Some(d), Some(Drop(b, c, d)), Some(Whole(p.maxDimensionDrop))))
  }

  predicate CriticalPresent(rows: seq<Row>, p: Policy) {
    exists code :: code in Flat(CodesOf, rows) && code in p.critical
  }

  predicate ReportsRegression(rows: seq<Row>, b: Aggregate, c: Aggregate, p: Policy, f: Finding) {
    || (f == Finding(CriticalFinding, None, None, None) && CriticalPresent(rows, p))
    || (Minus(b.overall, c.overall) > Whole(p.maxDrop)
        && f == Finding(OverallDrop, None, Some(Minus(b.overall, c.overall)), Some(Whole(p.maxDrop))))
    || exists d :: 0 <= d < 6 && ReportsDimension(b, c, p, d, f)
  }

  lemma DropsEmpty(b: Aggregate, c: Aggregate, p: Policy)
    ensures Flat(DropsOf(b, c, p), DIMENSIONS) == [] <==> forall d :: 0 <= d < 6 ==> DimensionHeld(b, c, p, d)
  {
    FlatEmpty(DropsOf(b, c, p), DIMENSIONS);
    forall d: nat ensures (d in DIMENSIONS <==> d < 6) && (DropsOf(b, c, p)(d) == [] <==> DimensionHeld(b, c, p, d)) {
      AllDimensions(d);
    }
  }

  lemma RegressionsEmpty(rows: seq<Row>, b: Aggregate, c: Aggregate, p: Policy)
    ensures Regressions(rows, b, c, p) == [] <==> Held(b, c, p) && CriticalCodes(rows, p) == {}
  {
    DropsEmpty(b, c, p);
    assert |CriticalCodes(rows, p)| == 0 <==> CriticalCodes(rows, p) == {};
  }

  lemma DropsAt(b: Aggregate, c: Aggregate, p: Policy, d: nat, f: Finding)
    ensures f in DropsOf(b, c, p)(d) <==> ReportsDimension(b, c, p, d, f)
  {
    assert DropsOf(b, c, p)(d) == BelowMinimum(c, p, d) + Dropped(b, c, p, d);
  }

  lemma DropsMean(b: Aggregate, c: Aggregate, p: Policy, f: Finding)
    ensures f in Flat(DropsOf(b, c, p), DIMENSIONS) <==> exists d :: 0 <= d < 6 && ReportsDimension(b, c, p, d, f)
  {
    FlatMember(DropsOf(b, c, p), DIMENSIONS, f);
    forall d: nat { AllDimensions(d); }
    forall d: nat { DropsAt(b, c, p, d, f); }
  }

  lemma RepeatedMember(n: nat, f: Finding)
    ensures f in Repeat(CRITICAL, n) <==> n > 0 && f == CRITICAL
  {
    if n > 0 { assert Repeat(CRITICAL, n)[0] == CRITICAL; }
  }

  lemma PresentExactly(rows: seq<Row>, p: Policy)
    ensures |CriticalCodes(rows, p)| > 0 <==> CriticalPresent(rows, p)
  {
    var codes := CriticalCodes(rows, p);
    if |codes| > 0 { var code :| code in codes; }
    if code :| code in Flat(CodesOf, rows) && code in p.critical { assert code in codes; }
  }

  lemma RegressionsMean(rows: seq<Row>, b: Aggregate, c: Aggregate, p: Policy, f: Finding)
    ensures f in Regressions(rows, b, c, p) <==> ReportsRegression(rows, b, c, p, f)
  {
    DropsMean(b, c, p, f);
    RepeatedMember(|CriticalCodes(rows, p)|, f);
    PresentExactly(rows, p);
  }

  /** Lines 328-332: the critical codes of one run are added to those seen before. */
  method RunCodes(codes: seq<string>, p: Policy, before: set<string>) returns (present: set<string>)
    ensures present == before + set code | code in codes && code in p.critical
  {
    present := before;
    var i := 0;
    while i < |codes|
      invariant 0 <= i <= |codes| && present == before + set code | code in codes[..i] && code in p.critical
    {
      assert codes[..i + 1] == codes[..i] + [codes[i]];
      if codes[i] in p.critical { present := present + {codes[i]}; }
      i := i + 1;
    }
    assert codes[..|codes|] == codes;
  }

  method PresentCodes(rows: seq<Row>, p: Policy) returns (present: set<string>)
    ensures present == CriticalCodes(rows, p)
  {
    present := {};
    var i := 0;
    while i < |rows|
      invariant 0 <= i <= |rows| && present == CriticalCodes(rows[..i], p)
    {
      assert rows[..i + 1] == rows[..i] + [rows[i]];
      FlatConcat(CodesOf, rows[..i], [rows[i]]);
      FlatOne(CodesOf, rows[i], []);
      assert [rows[i]] + [] == [rows[i]];
      present := RunCodes(CodesOf(rows[i]), p, present);
      i := i + 1;
    }
    assert rows[..|rows|] == rows;
  }

  method DimensionFailure(b: Aggregate, c: Aggregate, p: Policy, d: nat) returns (findings: seq<Finding>)
    ensures findings == DropsOf(b, c, p)(d)
  {
    findings := [];
    if TooLow(c, p, d) { findings := findings + [MinimumFinding(c, p, d)]; }
    if BothScored(b, c, d) && Drop(b, c, d) > Whole(p.maxDimensionDrop) {
      findings := findings + [Finding(DimensionDrop, Some(d), Some(Drop(b, c, d)), Some(Whole(p.maxDimensionDrop)))];
    }
  }

  method DimensionFailures(b: Aggregate, c: Aggregate, p: Policy, dimensions: seq<nat>) returns (findings: seq<Finding>)
    ensures findings == Flat(DropsOf(b, c, p), dimensions)
  {
    findings := [];
    var i := 0;
    while i < |dimensions|
      invariant 0 <= i <= |dimensions| && findings == Flat(DropsOf(b, c, p), dimensions[..i])
    {
      FlatSnoc(DropsOf(b, c, p), dimensions, i);
      var more := DimensionFailure(b, c, p, dimensions[i]);
      findings := findings + more;
      i := i + 1;
    }
    assert dimensions[..|dimensions|] == dimensions;
  }

  /** Line 332: one finding for each code present. */
  method CriticalFailures(present: set<string>) returns (findings: seq<Finding>)
    ensures findings == Repeat(CRITICAL, |present|)
  {
    findings := [];
    var codes := present;
    while codes != {}
      invariant codes <= present && findings == Repeat(CRITICAL, |present| - |codes|)
      decreases |codes|
    {
      var code :| code in codes;
      codes := codes - {code};
      findings := findings + [CRITICAL];
    }
  }

  lemma NoCritical(rows: seq<Row>, p: Policy)
    ensures CriticalCodes(rows, p) == {} <==> forall code :: code in Flat(CodesOf, rows) ==> code !in p.critical
  {
    assert forall code :: code in CriticalCodes(rows, p) <==> code in Flat(CodesOf, rows) && code in p.critical;
  }

  /** The regression findings: one for each critical code present, one for the overall drop, and those of the
      dimensions; each reports something beyond its bound, and everything beyond its bound is reported. */
  method RegressionFailures(rows: seq<Row>, b: Aggregate, c: Aggregate, p: Policy) returns (findings: seq<Finding>)
    ensures findings == [] <==> Held(b, c, p) && forall code :: code in Flat(CodesOf, rows) ==> code !in p.critical
    ensures forall f :: f in findings <==> ReportsRegression(rows, b, c, p, f)
    ensures findings == Regressions(rows, b, c, p)
  {
    var codes := PresentCodes(rows, p);
    findings := CriticalFailures(codes);
    if Minus(b.overall, c.overall) > Whole(p.maxDrop) { findings := findings + [OverallDropped(b, c, p)]; }
    var ofDimensions := DimensionFailures(b, c, p, DIMENSIONS);
    findings := findings + ofDimensions;
    assert findings == Regressions(rows, b, c, p);
    RegressionsEmpty(rows, b, c, p);
    NoCritical(rows, p);
    forall f ensures f in findings <==> ReportsRegression(rows, b, c, p, f) { RegressionsMean(rows, b, c, p, f); }
  }

  // ---------- what the verdict means ----------

  /** Means are hundredths of numbers from 0 to 100. */
  predicate InScale(a: Aggregate) {
    && 0 <= a.overall <= 10_000
    && forall d :: 0 <= d < |a.dimensions| && a.dimensions[d].Some? ==> 0 <= a.dimensions[d].value <= 10_000
  }

  /** The bounds of the policy in exact numbers. */
  predicate WithinBounds(b: Aggregate, c: Aggregate, p: Policy) {
    && b.overall - c.overall <= 100 * p.maxDrop
    && (forall d :: 0 <= d < 6 && BothScored(b, c, d) ==>
          b.dimensions[d].value - c.dimensions[d].value <= 100 * p.maxDimensionDrop)
    && MinimumsMet(c, p)
  }

  predicate MinimumsMet(c: Aggregate, p: Policy) {
    forall d :: 0 <= d < 6 && d in p.minimums ==>
      d < |c.dimensions| && c.dimensions[d].Some? && c.dimensions[d].value >= 100 * p.minimums[d]
  }

  /** A drop equals its bound and its computed value is above it. */
  predicate RoundedUp(x: int, y: int, bound: nat) {
    x - y == 100 * bound && Minus(x, y) > Whole(bound)
  }

  predicate AnyRoundedUp(b: Aggregate, c: Aggregate, p: Policy) {
    || RoundedUp(b.overall, c.overall, p.maxDrop)
    || exists d :: 0 <= d < 6 && BothScored(b, c, d)
                   && RoundedUp(b.dimensions[d].value, c.dimensions[d].value, p.maxDimensionDrop)
  }

  predicate ValidMinimums(p: Policy) {
    forall d :: d in p.minimums ==> p.minimums[d] <= 100
  }

  lemma DropHeld(x: int, y: int, bound: nat)
    requires 0 <= x <= 10_000 && 0 <= y <= 10_000
    ensures Minus(x, y) <= Whole(bound) <==> x - y <= 100 * bound && !RoundedUp(x, y, bound)
  {
    DropDecided(x, y, bound);
  }

  lemma DimensionHeldExactly(b: Aggregate, c: Aggregate, p: Policy, d: nat)
    requires InScale(b) && InScale(c) && ValidMinimums(p) && d < 6
    ensures DimensionHeld(b, c, p, d) <==>
      && (BothScored(b, c, d) ==>
            && b.dimensions[d].value - c.dimensions[d].value <= 100 * p.maxDimensionDrop
            && !RoundedUp(b.dimensions[d].value, c.dimensions[d].value, p.maxDimensionDrop))
      && (d in p.minimums ==>
            d < |c.dimensions| && c.dimensions[d].Some? && c.dimensions[d].value >= 100 * p.minimums[d])
  {
    if BothScored(b, c, d) { DropHeld(b.dimensions[d].value, c.dimensions[d].value, p.maxDimensionDrop); }
    if d in p.minimums && d < |c.dimensions| && c.dimensions[d].Some? {
      BelowDecided(c.dimensions[d].value, p.minimums[d]);
    }
  }

  /** The code's bounds hold exactly when the policy's do and no drop that equals its bound is rounded up. */
  lemma HeldExactly(b: Aggregate, c: Aggregate, p: Policy)
    requires InScale(b) && InScale(c) && ValidMinimums(p)
    ensures Held(b, c, p) <==> WithinBounds(b, c, p) && !AnyRoundedUp(b, c, p)
  {
    DropHeld(b.overall, c.overall, p.maxDrop);
    forall d | 0 <= d < 6
      ensures DimensionHeld(b, c, p, d) <==>
        && (BothScored(b, c, d) ==>
              && b.dimensions[d].value - c.dimensions[d].value <= 100 * p.maxDimensionDrop
              && !RoundedUp(b.dimensions[d].value, c.dimensions[d].value, p.maxDimensionDrop))
        && (d in p.minimums ==>
              d < |c.dimensions| && c.dimensions[d].Some? && c.dimensions[d].value >= 100 * p.minimums[d])
    {
      DimensionHeldExactly(b, c, p, d);
    }
  }

  /** Once both sides are aggregated: UNSTABLE exactly on a spread above its bound, and PASS exactly when every
      bound of the policy holds, no critical code is present, and no drop that equals its bound is rounded up. */
  lemma VerdictExactly(b: Aggregate, c: Aggregate, rows: seq<Row>, coverage: nat, p: Policy)
    requires |b.spreads| == |c.spreads| == 6 && InScale(b) && InScale(c) && ValidMinimums(p)
    ensures var o := Verdict(Some(b), Some(c), rows, coverage, p);
            && (o.status == Unstable <==> !(Steady(b, p) && Steady(c, p)))
            && (o.status == Pass <==>
                  && Steady(b, p) && Steady(c, p) && CriticalCodes(rows, p) == {}
                  && WithinBounds(b, c, p) && !AnyRoundedUp(b, c, p))
            && o.status in {Unstable, Pass, Regression} && o.baseline == Some(b) && o.candidate == Some(c)
  {
    SideVarianceEmpty(BaselineVariance, b, p);
    SideVarianceEmpty(CandidateVariance, c, p);
    RegressionsEmpty(rows, b, c, p);
    HeldExactly(b, c, p);
  }

  lemma RoundedUpIsReported(b: Aggregate, c: Aggregate, rows: seq<Row>, coverage: nat, p: Policy)
    requires |b.spreads| == |c.spreads| == 6 && Steady(b, p) && Steady(c, p)
      && RoundedUp(b.overall, c.overall, p.maxDrop)
    ensures Verdict(Some(b), Some(c), rows, coverage, p).status == Regression
  {
    SideVarianceEmpty(BaselineVariance, b, p);
    SideVarianceEmpty(CandidateVariance, c, p);
    RegressionsEmpty(rows, b, c, p);
  }

  lemma ExampleMeans()
    ensures Mean([64, 64, 64, 65, 65]) == 6_440 && Mean([59, 59, 59, 60, 60]) == 5_940
  {
    SumFive(64, 64, 64, 65, 65);
    SumFive(59, 59, 59, 60, 60);
  }

  lemma ExampleRounds(x: int, y: int, bound: nat)
    requires x == 6_440 && y == 5_940 && bound == 5
    ensures RoundedUp(x, y, bound)
  {
    DropRoundedUp();
  }

  /** A drop that equals its bound may be reported: five runs a side with overall scores that add up to 322 and
      297 have dropped by 5 exactly, and with a bound of 5 that is a regression. */
  lemma EqualDropIsReported(b: Aggregate, c: Aggregate, rows: seq<Row>, coverage: nat, p: Policy)
    requires |b.spreads| == |c.spreads| == 6 && Steady(b, p) && Steady(c, p) && p.maxDrop == 5
    requires b.overall == Mean([64, 64, 64, 65, 65]) && c.overall == Mean([59, 59, 59, 60, 60])
    ensures b.overall - c.overall == 100 * p.maxDrop
      && Verdict(Some(b), Some(c), rows, coverage, p).status == Regression
  {
    ExampleMeans();
    ExampleRounds(b.overall, c.overall, p.maxDrop);
    RoundedUpIsReported(b, c, rows, coverage, p);
  }

  lemma SumFive(v: int, w: int, x: int, y: int, z: int)
    ensures Sum([v, w, x, y, z]) == v + w + x + y + z
  {
    assert [v, w, x, y, z][1..] == [w, x, y, z] && [w, x, y, z][1..] == [x, y, z];
    assert [x, y, z][1..] == [y, z] && [y, z][1..] == [z] && [z][1..] == [];
    assert Sum([z]) == z + Sum([z][1..]) == z;
    assert Sum([y, z]) == y + Sum([y, z][1..]) == y + z;
    assert Sum([w, x, y, z]) == w + x + Sum([y, z]);
  }

  // ---------- the runs behind a verdict ----------

  predicate Scaled(s: seq<int>) {
    forall x :: x in s ==> 0 <= x <= 100
  }

  lemma {:induction false} SumScaled(s: seq<int>)
    requires Scaled(s)
    ensures 0 <= Sum(s) <= 100 * |s|
  {
    if s != [] {
      assert s[0] in s && forall x :: x in s[1..] ==> x in s;
      SumScaled(s[1..]);
    }
  }

  lemma MeanScaled(s: seq<int>)
    requires s != [] && Scaled(s)
    ensures 0 <= Mean(s) <= 10_000
  {
    SumScaled(s);
    QuotientBound(Sum(s) * 100, |s|, 10_000);
  }

  lemma OverallScaled(rows: seq<Row>)
    requires CardsValid(rows)
    ensures Scaled(Flat(OverallOf, rows))
  {
    var s := Flat(OverallOf, rows);
    forall x | x in s ensures 0 <= x <= 100 { FlatMember(OverallOf, rows, x); }
  }

  lemma PointsScaled(rows: seq<Row>, d: nat)
    ensures Scaled(Flat(PointsFor(d), rows))
  {
    var s := Flat(PointsFor(d), rows);
    forall x | x in s ensures 0 <= x <= 100 { FlatMember(PointsFor(d), rows, x); }
  }

  lemma AggregateInScale(rows: seq<Row>, ids: seq<string>)
    requires AggregateOf(rows, ids).Some?
    ensures InScale(AggregateOf(rows, ids).value)
  {
    OverallScaled(rows);
    MeanScaled(Flat(OverallOf, rows));
    forall d: nat | d < 6 && DimensionMean(rows, d).Some? ensures 0 <= DimensionMean(rows, d).value <= 10_000 {
      PointsScaled(rows, d);
      MeanScaled(Flat(PointsFor(d), rows));
    }
  }

  lemma WithinSpread(rows: seq<Row>, r: Row, q: Row)
    requires r in rows && q in rows && r.scorecard.Some? && q.scorecard.Some?
    ensures Flat(OverallOf, rows) != []
    ensures r.scorecard.value.overall - q.scorecard.value.overall <= SpreadOf(Flat(OverallOf, rows))[0]
  {
    FlatMember(OverallOf, rows, r.scorecard.value.overall);
    FlatMember(OverallOf, rows, q.scorecard.value.overall);
    assert r.scorecard.value.overall in OverallOf(r) && q.scorecard.value.overall in OverallOf(q);
  }

  lemma LargestSpread(rows: seq<Row>, ids: seq<string>, id: string, spread: int)
    requires id in ids && SpreadOf(Flat(OverallOf, Group(rows, id))) == [spread]
    ensures Spreads(OverallOf, rows, ids) != [] && spread <= Max(Spreads(OverallOf, rows, ids))
  {
    FlatMember(SpreadIn(OverallOf, rows), ids, spread);
    assert spread in SpreadIn(OverallOf, rows)(id);
  }

  /** Any two runs of a scenario differ by at most the largest spread. */
  lemma SpreadBoundsRuns(rows: seq<Row>, ids: seq<string>, id: string, r: Row, q: Row)
    requires AggregateOf(rows, ids).Some? && id in ids && r in Group(rows, id) && q in Group(rows, id)
    requires r.scorecard.Some? && q.scorecard.Some?
    ensures r.scorecard.value.overall - q.scorecard.value.overall <= AggregateOf(rows, ids).value.overallSpread
  {
    WithinSpread(Group(rows, id), r, q);
    LargestSpread(rows, ids, id, SpreadOf(Flat(OverallOf, Group(rows, id)))[0]);
  }

  /** The rows of the covered scenarios hold each of their runs. */
  lemma CoveredRun(rows: seq<Row>, ids: seq<string>, id: string, r: Row)
    requires id in ids && r in Group(rows, id)
    ensures r in Group(RowsOf(rows, ids), id)
  {
    FlatMember(GroupIn(rows), ids, r);
    FlatMember(Picks(id), rows, r);
    FlatMember(Picks(id), RowsOf(rows, ids), r);
  }

  lemma CoveredScenario(rows: seq<Row>, ids: seq<string>, required: nat, id: string)
    requires id in Covered(rows, ids, required)
    ensures id in ids && |Group(rows, id)| == required
  {
    FlatMember(IfCovered(rows, required), ids, id);
  }

  /** The scenarios both cohorts ran as often as required. */
  function Common(b: Cohort, c: Cohort, p: Policy): seq<string>
    requires b.campaigns != []
  {
    var ids := ScenarioIds(b.campaigns[0]);
    InBoth(Covered(Rows(b.campaigns), ids, p.required), Covered(Rows(c.campaigns), ids, p.required))
  }

  lemma CommonCovered(b: Cohort, c: Cohort, p: Policy, id: string)
    requires b.campaigns != [] && id in Common(b, c, p)
    ensures |Group(Rows(b.campaigns), id)| == |Group(Rows(c.campaigns), id)| == p.required
  {
    var ids := ScenarioIds(b.campaigns[0]);
    var coveredB, coveredC := Covered(Rows(b.campaigns), ids, p.required), Covered(Rows(c.campaigns), ids, p.required);
    FlatMember(IfIn(coveredC), coveredB, id);
    CoveredScenario(Rows(b.campaigns), ids, p.required, id);
    CoveredScenario(Rows(c.campaigns), ids, p.required, id);
  }

  /** What is behind a PASS once the runs of the covered scenarios are at hand. */
  ghost predicate PassGrounds(o: Outcome, b: seq<Row>, c: seq<Row>, common: seq<string>, p: Policy) {
    && o.baseline.Some? && o.candidate.Some?
    && o.baseline == AggregateOf(b, common) && o.candidate == AggregateOf(c, common)
    && Steady(o.baseline.value, p) && Steady(o.candidate.value, p)
      && WithinBounds(o.baseline.value, o.candidate.value, p)
    && (forall code :: code in Flat(CodesOf, c) ==> code !in p.critical)
  }

  lemma JudgedPass(b: seq<Row>, c: seq<Row>, common: seq<string>, coverage: nat, p: Policy)
    requires ValidMinimums(p)
    ensures var o := Judge(b, c, common, coverage, p);
            o.coverage == coverage && (o.status == Pass ==> PassGrounds(o, b, c, common, p))
  {
    var x, y := AggregateOf(b, common), AggregateOf(c, common);
    if x.Some? && y.Some? {
      AggregateInScale(b, common);
      AggregateInScale(c, common);
      VerdictExactly(x.value, y.value, c, coverage, p);
      assert CriticalCodes(c, p) == {} ==> forall code :: code in Flat(CodesOf, c) ==> code !in CriticalCodes(c, p);
    }
  }

  lemma ComparedPass(b: seq<Row>, c: seq<Row>, coveredB: seq<string>, coveredC: seq<string>, n: nat, p: Policy)
    requires n > 0 && ValidMinimums(p)
    ensures var o, common := CompareCovered(b, c, coveredB, coveredC, n, p), InBoth(coveredB, coveredC);
            o.status == Pass ==>
              && p.minCoverage <= o.coverage == |common| * 10_000 / n
              && PassGrounds(o, RowsOf(b, common), RowsOf(c, common), common, p)
  {
    var common := InBoth(coveredB, coveredC);
    JudgedPass(RowsOf(b, common), RowsOf(c, common), common, |common| * 10_000 / n, p);
  }

  lemma EvaluatedPass(b: Cohort, c: Cohort, p: Policy)
    requires ValidInput(b, c, p)
    ensures var o, common := Evaluate(b, c, p), Common(b, c, p);
            o.status == Pass ==>
              && Early(b, c, p) == None && p.minCoverage <= o.coverage == |common| * 10_000 / |b.campaigns[0].scenarios|
              && PassGrounds(o, RowsOf(Rows(b.campaigns), common), RowsOf(Rows(c.campaigns), common), common, p)
  {
    if Early(b, c, p) == None {
      var rowsB, rowsC, ids := Rows(b.campaigns), Rows(c.campaigns), ScenarioIds(b.campaigns[0]);
      ComparedPass(rowsB, rowsC, Covered(rowsB, ids, p.required), Covered(rowsC, ids, p.required), |ids|, p);
    }
  }

  lemma SideSpread(rows: seq<Row>, common: seq<string>, p: Policy, id: string, r: Row, q: Row)
    requires AggregateOf(RowsOf(rows, common), common).Some?
      && Steady(AggregateOf(RowsOf(rows, common), common).value, p)
    requires id in common && r in Group(rows, id) && q in Group(rows, id) && r.scorecard.Some? && q.scorecard.Some?
    ensures r.scorecard.value.overall - q.scorecard.value.overall <= p.maxSpread
  {
    CoveredRun(rows, common, id, r);
    CoveredRun(rows, common, id, q);
    SpreadBoundsRuns(RowsOf(rows, common), common, id, r, q);
  }

  /** PASS means every bound of the policy is met, in exact numbers, by the means and spreads of the runs of the
      covered scenarios: coverage, both spreads, both drops, every minimum and no critical code. */
  lemma PassMeans(b: Cohort, c: Cohort, p: Policy)
    requires ValidInput(b, c, p)
    ensures var o, common := Evaluate(b, c, p), Common(b, c, p);
            o.status == Pass ==>
              && b.version != c.version && |b.campaigns| == |c.campaigns| == p.required
              && p.minCoverage <= o.coverage == |common| * 10_000 / |b.campaigns[0].scenarios|
              && PassGrounds(o, RowsOf(Rows(b.campaigns), common), RowsOf(Rows(c.campaigns), common), common, p)
  {
    EvaluatedPass(b, c, p);
  }

  /** And then any two runs of a covered scenario, of which there are as many as required, differ by at most
      the bound on spreads. */
  lemma PassBoundsRuns(b: Cohort, c: Cohort, p: Policy, id: string, r: Row, q: Row)
    requires ValidInput(b, c, p) && Evaluate(b, c, p).status == Pass && id in Common(b, c, p)
    requires r.scorecard.Some? && q.scorecard.Some?
    requires (r in Group(Rows(b.campaigns), id) && q in Group(Rows(b.campaigns), id))
          || (r in Group(Rows(c.campaigns), id) && q in Group(Rows(c.campaigns), id))
    ensures r.scorecard.value.overall - q.scorecard.value.overall <= p.maxSpread
    ensures |Group(Rows(b.campaigns), id)| == |Group(Rows(c.campaigns), id)| == p.required
  {
    EvaluatedPass(b, c, p);
    CommonCovered(b, c, p, id);
    var common := Common(b, c, p);
    if r in Group(Rows(b.campaigns), id) && q in Group(Rows(b.campaigns), id) {
      SideSpread(Rows(b.campaigns), common, p, id, r, q);
    } else {
      SideSpread(Rows(c.campaigns), common, p, id, r, q);
    }
  }
}
