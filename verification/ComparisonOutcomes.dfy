// What the comparison of two versions answers: packages/evaluation/src/comparison.ts:80-152, 196-312.
// Each check is stated on the campaigns and their items, apart from the functions that compute the answer.

module ComparisonOutcomes {
  import opened Arithmetic
  import opened Comparison
  import opened Sequences
  import opened Wrappers

  // ---------- lists ----------

  predicate Apart<T(==)>(a: seq<T>, b: seq<T>) {
    forall x :: x in a ==> x !in b
  }

  lemma DistinctConcat<T>(a: seq<T>, b: seq<T>)
    ensures Distinct(a + b) <==> Distinct(a) && Distinct(b) && Apart(a, b)
  {
    var s := a + b;
    if Distinct(s) {
      assert forall i :: 0 <= i < |a| ==> a[i] == s[i];
      assert forall i, j :: 0 <= i < j < |b| ==> s[|a| + i] == b[i] && s[|a| + j] == b[j];
      forall i, j | 0 <= i < |a| && 0 <= j < |b| ensures a[i] != b[j] {
        assert s[i] == a[i] && s[|a| + j] == b[j];
      }
    }
    if Distinct(a) && Distinct(b) && Apart(a, b) {
      forall i, j | 0 <= i < j < |s| ensures s[i] != s[j] {
        if j < |a| {
          assert s[i] == a[i] && s[j] == a[j];
        } else if i >= |a| {
          assert s[i] == b[i - |a|] && s[j] == b[j - |a|];
        } else {
          assert s[i] in a && s[j] in b;
        }
      }
    }
  }

  /** What is flattened repeats nothing exactly when no part does and no two parts share anything. */
  lemma {:induction false} FlatDistinct<A, B>(f: A -> seq<B>, s: seq<A>)
    ensures Distinct(Flat(f, s)) <==>
              && (forall i :: 0 <= i < |s| ==> Distinct(f(s[i])))
              && (forall i, j :: 0 <= i < j < |s| ==> Apart(f(s[i]), f(s[j])))
  {
    if s != [] {
      var t := s[1..];
      FlatDistinct(f, t);
      DistinctConcat(f(s[0]), Flat(f, t));
      assert s == [s[0]] + t;
      assert Apart(f(s[0]), Flat(f, t)) <==> forall j :: 0 < j < |s| ==> Apart(f(s[0]), f(s[j])) by {
        forall x ensures x in Flat(f, t) <==> exists j :: 0 < j < |s| && x in f(s[j]) {
          FlatMember(f, t, x);
          if j :| 0 < j < |s| && x in f(s[j]) { assert s[j] == t[j - 1] && s[j] in t; }
        }
      }
      assert forall i :: 0 <= i < |t| ==> t[i] == s[i + 1];
      assert forall i :: 0 < i < |s| ==> s[i] == t[i - 1];
    }
  }

  // ---------- finished items and their rows ----------

  function ModelOf(x: Campaign, i: Item): string {
    if i.model.Some? then i.model.value else x.model
  }

  predicate IsRow(x: Campaign, i: Item, r: Row) {
    && i.state == ItemFinalized && r.scenario == i.scenario && r.runId == i.runId && r.scorecard == i.scorecard
    && r.model == ModelOf(x, i)
  }

  lemma RowsAreItems(cs: seq<Campaign>, r: Row)
    ensures r in Rows(cs) <==> exists x, i :: x in cs && i in x.items && IsRow(x, i, r)
  {
    FlatMember(CampaignRows, cs, r);
    forall x ensures r in CampaignRows(x) <==> exists i :: i in x.items && IsRow(x, i, r) {
      FlatMember(RowsIn(x), x.items, r);
      assert forall i :: r in RowsIn(x)(i) <==> IsRow(x, i, r);
    }
  }

  lemma GroupMembers(rows: seq<Row>, id: string, r: Row)
    ensures r in Group(rows, id) <==> r in rows && r.scenario == id
  {
    FlatMember(Picks(id), rows, r);
    assert forall q :: r in Picks(id)(q) <==> r == q && q.scenario == id;
  }

  lemma RowsOfMembers(rows: seq<Row>, ids: seq<string>, r: Row)
    ensures r in RowsOf(rows, ids) <==> r in rows && r.scenario in ids
  {
    FlatMember(GroupIn(rows), ids, r);
    forall id ensures r in GroupIn(rows)(id) <==> r in rows && r.scenario == id { GroupMembers(rows, id, r); }
  }

  /** A scenario is finished in a campaign where one of its items is FINALIZED. */
  predicate FinishedIn(x: Campaign, id: string) {
    exists i :: i in x.items && i.scenario == id && i.state == ItemFinalized
  }

  predicate Finished(cs: seq<Campaign>, id: string) {
    forall x :: x in cs ==> FinishedIn(x, id)
  }

  predicate OneEach(items: seq<Item>) {
    forall i, j :: 0 <= i < j < |items| ==> items[i].scenario != items[j].scenario
  }

  lemma {:induction false} ItemsGrouped(x: Campaign, items: seq<Item>, id: string)
    requires OneEach(items)
    ensures |Group(Flat(RowsIn(x), items), id)|
         == if exists i :: i in items && i.scenario == id && i.state == ItemFinalized then 1 else 0
  {
    if items != [] {
      ItemsGrouped(x, items[1..], id);
      FlatConcat(Picks(id), RowOf(x, items[0]), Flat(RowsIn(x), items[1..]));
      assert items == [items[0]] + items[1..];
      if items[0].state == ItemFinalized { FlatOne(Picks(id), RowOf(x, items[0])[0], []); }
      if i :| i in items[1..] && i.scenario == id {
        var k :| 0 <= k < |items[1..]| && items[1..][k] == i;
        assert items[k + 1] == i;
      }
    }
  }

  /** A cohort has a run of a scenario in every campaign exactly where each has its item FINALIZED. */
  lemma {:induction false} RunsCounted(cs: seq<Campaign>, id: string)
    requires forall x :: x in cs ==> OneEach(x.items)
    ensures |Group(Rows(cs), id)| <= |cs|
    ensures |Group(Rows(cs), id)| == |cs| <==> Finished(cs, id)
  {
    if cs != [] {
      var x, rest := cs[0], cs[1..];
      assert cs == [x] + rest;
      RunsCounted(rest, id);
      ItemsGrouped(x, x.items, id);
      FlatConcat(Picks(id), CampaignRows(x), Rows(rest));
    }
  }

  // ---------- the checks ----------

  /** The order in which the codes that end a comparison before anything is aggregated are looked for. */
  function Order(code: Code): nat {
    match code
    case VersionNotIsolated => 0
    case CampaignNotIsolated => 1
    case RunNotIsolated => 2
    case RunCountMismatch => 3
    case CampaignVersionMismatch => 4
    case OwnerMismatch => 5
    case PackIdMismatch => 6
    case PackVersionMismatch => 7
    case ScenarioSetMismatch => 8
    case ItemsMismatch => 9
    case RuntimePolicyMismatch => 10
    case ScoringVersionMismatch => 11
    case InfrastructureFailure => 12
    case InvalidScorecard => 13
    case AsymmetricCoverage => 14
    case MinimumCoverage => 15
    case InvalidModel => 16
    case DigestMismatch => 17
    case _ => 18
  }

  predicate ShareRun(i: Item, j: Item) {
    exists id :: id in i.runIds && id in j.runIds
  }

  /** In one item, or in two items of the campaign. */
  predicate RepeatsRun(x: Campaign) {
    || (exists i :: i in x.items && !Distinct(i.runIds))
    || exists i, j :: 0 <= i < j < |x.items| && ShareRun(x.items[i], x.items[j])
  }

  predicate ShareRuns(x: Campaign, y: Campaign) {
    exists i, j :: i in x.items && j in y.items && ShareRun(i, j)
  }

  /** A run identifier stands in two places. */
  predicate RunRepeated(all: seq<Campaign>) {
    || (exists x :: x in all && RepeatsRun(x))
    || exists m, n :: 0 <= m < n < |all| && ShareRuns(all[m], all[n])
  }

  /** A campaign has one item for each of its scenarios and no other. */
  predicate ItemsFit(x: Campaign) {
    && OneEach(x.items)
    && (forall i, j :: 0 <= i < j < |x.scenarios| ==> x.scenarios[i].id != x.scenarios[j].id)
    && (forall i :: i in x.items ==> exists s :: s in x.scenarios && s.id == i.scenario)
    && (forall s :: s in x.scenarios ==> exists i :: i in x.items && i.scenario == s.id)
  }

  predicate Recorded(i: Item, version: string) {
    i.runId.Some? && i.scorecard.Some? && i.scorecard.value.version == version
  }

  predicate Unrecorded(cs: seq<Campaign>, version: string) {
    exists x, i :: x in cs && i in x.items && i.state == ItemFinalized && !Recorded(i, version)
  }

  /** The scenarios finished in every campaign of both cohorts. */
  function BothFinished(b: Cohort, c: Cohort): set<string>
    requires b.campaigns != []
  {
    set s | s in b.campaigns[0].scenarios && Finished(b.campaigns, s.id) && Finished(c.campaigns, s.id) :: s.id
  }

  function Coverage(b: Cohort, c: Cohort): nat
    requires b.campaigns != [] && b.campaigns[0].scenarios != []
  {
    |BothFinished(b, c)| * 10_000 / |b.campaigns[0].scenarios|
  }

  /** The runs that are compared. */
  predicate Compared(all: seq<Campaign>, covered: set<string>, x: Campaign, i: Item) {
    x in all && i in x.items && i.state == ItemFinalized && i.scenario in covered
  }

  function DigestIn(i: Item): Option<string> {
    if i.scorecard.Some? then i.scorecard.value.digest else None
  }

  /** Two campaigns differ in a field. */
  predicate Differ<T(==)>(f: Campaign -> T, all: seq<Campaign>) {
    exists x, y :: x in all && y in all && f(x) != f(y)
  }

  predicate IdRepeated(all: seq<Campaign>) {
    exists i, j :: 0 <= i < j < |all| && all[i].id == all[j].id
  }

  predicate OtherVersion(h: Cohort) {
    exists x :: x in h.campaigns && x.version != h.version
  }

  predicate SomeUnfit(all: seq<Campaign>) {
    exists x :: x in all && !ItemsFit(x)
  }

  predicate SomeFailed(all: seq<Campaign>) {
    exists x :: x in all && (x.failed || exists i :: i in x.items && i.state == ItemFailed)
  }

  predicate OneSided(b: Cohort, c: Cohort)
    requires b.campaigns != []
  {
    exists s :: s in b.campaigns[0].scenarios && Finished(b.campaigns, s.id) != Finished(c.campaigns, s.id)
  }

  ghost predicate ModelUnknown(all: seq<Campaign>, covered: set<string>) {
    exists x, i :: Compared(all, covered, x, i) && ModelOf(x, i) == ""
  }

  ghost predicate DigestsVary(all: seq<Campaign>, covered: set<string>) {
    exists x, i, y, j :: Compared(all, covered, x, i) && Compared(all, covered, y, j) && i.scenario == j.scenario
                         && (DigestIn(i) == None || DigestIn(i) != DigestIn(j))
  }

  function All(b: Cohort, c: Cohort): seq<Campaign> {
    b.campaigns + c.campaigns
  }

  /** What each code says. */
  ghost predicate Fails(code: Code, b: Cohort, c: Cohort, p: Policy)
    requires b.campaigns != [] && b.campaigns[0].scenarios != []
  {
    match code
    case VersionNotIsolated => b.version == c.version
    case CampaignNotIsolated => IdRepeated(All(b, c))
    case RunNotIsolated => RunRepeated(All(b, c))
    case RunCountMismatch => |b.campaigns| != p.required || |c.campaigns| != p.required
    case CampaignVersionMismatch => OtherVersion(b) || OtherVersion(c)
    case OwnerMismatch => Differ(OwnerOf, All(b, c))
    case PackIdMismatch => Differ(PackIdOf, All(b, c))
    case PackVersionMismatch => Differ(PackVersionOf, All(b, c))
    case ScenarioSetMismatch => Differ(ScenariosOf, All(b, c))
    case ItemsMismatch => SomeUnfit(All(b, c))
    case RuntimePolicyMismatch => Differ(GenerationOf, All(b, c))
    case ScoringVersionMismatch => Differ(RubricOf, All(b, c))
    case InfrastructureFailure => SomeFailed(All(b, c))
    case InvalidScorecard => Unrecorded(b.campaigns, b.version) || Unrecorded(c.campaigns, c.version)
    case AsymmetricCoverage => OneSided(b, c)
    case MinimumCoverage => Coverage(b, c) < p.minCoverage
    case InvalidModel => ModelUnknown(All(b, c), BothFinished(b, c))
    case DigestMismatch => DigestsVary(All(b, c), BothFinished(b, c))
    case _ => false
  }

  function StatusOf(code: Code): Status {
    match code
    case InfrastructureFailure => InfrastructureError
    case InvalidScorecard => InfrastructureError
    case AsymmetricCoverage => Incomplete
    case MinimumCoverage => Incomplete
    case _ => Incomparable
  }

  /** All the codes that apply. */
  ghost predicate Failing(failing: set<Code>, b: Cohort, c: Cohort, p: Policy)
    requires b.campaigns != [] && b.campaigns[0].scenarios != []
  {
    forall code {:trigger Fails(code, b, c, p)} :: code in failing <==> Fails(code, b, c, p)
  }

  /** The code applies and none that is looked for before it does. */
  predicate First(code: Code, failing: set<Code>) {
    code in failing && forall d :: d in failing ==> Order(code) <= Order(d)
  }

  // ---------- the checks before any coverage ----------

  lemma CampaignsIsolated(all: seq<Campaign>)
    ensures NoRepeats(Flat(IdsOf, all)) <==> !IdRepeated(all)
  {
    DistinctCounted(Flat(IdsOf, all));
    FlatDistinct(IdsOf, all);
    assert forall i, j :: 0 <= i < j < |all| ==> (Apart(IdsOf(all[i]), IdsOf(all[j])) <==> all[i].id != all[j].id) by {
      assert forall i :: 0 <= i < |all| ==> all[i].id in IdsOf(all[i]);
    }
  }

  lemma RunsOfOne(x: Campaign)
    ensures Distinct(RunIdsOf(x)) <==> !RepeatsRun(x)
  {
    FlatDistinct(ItemRunIds, x.items);
    forall i, j | 0 <= i < j < |x.items|
      ensures Apart(ItemRunIds(x.items[i]), ItemRunIds(x.items[j])) <==> !ShareRun(x.items[i], x.items[j])
    {
    }
  }

  lemma RunsOfTwo(x: Campaign, y: Campaign)
    ensures Apart(RunIdsOf(x), RunIdsOf(y)) <==> !ShareRuns(x, y)
  {
    forall id ensures id in RunIdsOf(x) <==> exists i :: i in x.items && id in ItemRunIds(i) {
      FlatMember(ItemRunIds, x.items, id);
    }
    forall id ensures id in RunIdsOf(y) <==> exists j :: j in y.items && id in ItemRunIds(j) {
      FlatMember(ItemRunIds, y.items, id);
    }
    if i, j :| i in x.items && j in y.items && ShareRun(i, j) {
      var id :| id in i.runIds && id in j.runIds;
      assert id in ItemRunIds(i) && id in ItemRunIds(j);
      assert id in RunIdsOf(x) && id in RunIdsOf(y);
      assert !Apart(RunIdsOf(x), RunIdsOf(y));
    }
    if !Apart(RunIdsOf(x), RunIdsOf(y)) {
      var id :| id in RunIdsOf(x) && id in RunIdsOf(y);
      var i :| i in x.items && id in ItemRunIds(i);
      var j :| j in y.items && id in ItemRunIds(j);
      assert ShareRun(i, j);
    }
  }

  lemma RunsIsolated(all: seq<Campaign>)
    ensures NoRepeats(Flat(RunIdsOf, all)) <==> !RunRepeated(all)
  {
    DistinctCounted(Flat(RunIdsOf, all));
    FlatDistinct(RunIdsOf, all);
    forall i | 0 <= i < |all| { RunsOfOne(all[i]); }
    forall i, j | 0 <= i < j < |all| { RunsOfTwo(all[i], all[j]); }
  }

  lemma {:induction false} OnceEach<T>(s: seq<T>, x: T)
    requires Distinct(s)
    ensures multiset(s)[x] == if x in s then 1 else 0
  {
    if s != [] {
      OnceEach(s[1..], x);
      assert s == [s[0]] + s[1..];
    }
  }

  lemma SameMembers<T>(a: seq<T>, b: seq<T>)
    requires Distinct(a) && Distinct(b) && forall x :: x in a <==> x in b
    ensures multiset(a) == multiset(b)
  {
    forall x ensures multiset(a)[x] == multiset(b)[x] {
      OnceEach(a, x);
      OnceEach(b, x);
    }
  }

  lemma ItemIds(x: Campaign, id: string)
    ensures id in ItemScenarios(x) <==> exists i :: i in x.items && i.scenario == id
  {
    var ids := ItemScenarios(x);
    if id in ids {
      var k :| 0 <= k < |ids| && ids[k] == id;
      assert x.items[k] in x.items;
    }
    if i :| i in x.items && i.scenario == id {
      var k :| 0 <= k < |x.items| && x.items[k] == i;
      assert ids[k] == id;
    }
  }

  lemma KnownIds(x: Campaign, id: string)
    ensures id in ScenarioIds(x) <==> exists s :: s in x.scenarios && s.id == id
  {
    var ids := ScenarioIds(x);
    if id in ids {
      var k :| 0 <= k < |ids| && ids[k] == id;
      assert x.scenarios[k] in x.scenarios;
    }
    if s :| s in x.scenarios && s.id == id {
      var k :| 0 <= k < |x.scenarios| && x.scenarios[k] == s;
      assert ids[k] == id;
    }
  }

  lemma SameIds(x: Campaign)
    ensures (forall id :: id in ItemScenarios(x) <==> id in ScenarioIds(x)) <==>
              && (forall i :: i in x.items ==> exists s :: s in x.scenarios && s.id == i.scenario)
              && (forall s :: s in x.scenarios ==> exists i :: i in x.items && i.scenario == s.id)
  {
    forall id { ItemIds(x, id); }
    forall id { KnownIds(x, id); }
    if forall id :: id in ItemScenarios(x) <==> id in ScenarioIds(x) {
      forall i | i in x.items ensures exists s :: s in x.scenarios && s.id == i.scenario {
        assert i.scenario in ItemScenarios(x);
      }
      forall s | s in x.scenarios ensures exists i :: i in x.items && i.scenario == s.id {
        assert s.id in ScenarioIds(x);
      }
    }
  }

  lemma DistinctIds(x: Campaign)
    ensures Distinct(ItemScenarios(x)) <==> OneEach(x.items)
    ensures Distinct(ScenarioIds(x)) <==>
              forall i, j :: 0 <= i < j < |x.scenarios| ==> x.scenarios[i].id != x.scenarios[j].id
  {
    var items, ids := ItemScenarios(x), ScenarioIds(x);
    assert forall i :: 0 <= i < |x.items| ==> items[i] == x.items[i].scenario;
    assert forall i :: 0 <= i < |x.scenarios| ==> ids[i] == x.scenarios[i].id;
  }

  lemma ItemsFitExactly(x: Campaign)
    ensures ItemsMatch(x) <==> ItemsFit(x)
  {
    var items, ids := ItemScenarios(x), ScenarioIds(x);
    DistinctCounted(items);
    DistinctCounted(ids);
    DistinctIds(x);
    SameIds(x);
    if ItemsMatch(x) {
      PermutedMembers(items, ids);
      assert (set i | i in items) == (set i | i in ids);
    }
    if Distinct(items) && Distinct(ids) && (forall id :: id in items <==> id in ids) { SameMembers(items, ids); }
  }

  lemma Agreed<T>(f: Campaign -> T, r: Campaign, all: seq<Campaign>)
    requires r in all
    ensures Agree(f, r, all) <==> !Differ(f, all)
  {
  }

  lemma AllFit(all: seq<Campaign>)
    ensures (forall x :: x in all ==> ItemsMatch(x)) <==> !SomeUnfit(all)
  {
    forall x | x in all { ItemsFitExactly(x); }
  }

  lemma UnrecordedExactly(cs: seq<Campaign>, version: string)
    ensures AllValid(version, Rows(cs)) <==> !Unrecorded(cs, version)
  {
    forall r { RowsAreItems(cs, r); }
    if x, i :| x in cs && i in x.items && i.state == ItemFinalized && !Recorded(i, version) {
      var r := Row(i.scenario, i.runId, i.scorecard, ModelOf(x, i));
      assert IsRow(x, i, r) && r in Rows(cs) && !RowValid(version, r);
    }
  }

  lemma BrokenExactly(all: seq<Campaign>)
    ensures AnyBroken(all) <==> SomeFailed(all)
  {
    forall x ensures Broken(x) <==> x.failed || exists i :: i in x.items && i.state == ItemFailed {
    }
  }

  lemma IsolationFails(failing: set<Code>, b: Cohort, c: Cohort, p: Policy)
    requires b.campaigns != [] && b.campaigns[0].scenarios != [] && Failing(failing, b, c, p)
    ensures VersionNotIsolated in failing <==> b.version == c.version
    ensures CampaignNotIsolated in failing <==> !NoRepeats(Flat(IdsOf, b.campaigns + c.campaigns))
    ensures RunNotIsolated in failing <==> !NoRepeats(Flat(RunIdsOf, b.campaigns + c.campaigns))
  {
    CampaignsIsolated(All(b, c));
    RunsIsolated(All(b, c));
    assert VersionNotIsolated in failing <==> Fails(VersionNotIsolated, b, c, p);
    assert CampaignNotIsolated in failing <==> Fails(CampaignNotIsolated, b, c, p);
    assert RunNotIsolated in failing <==> Fails(RunNotIsolated, b, c, p);
  }

  lemma FieldsFail(failing: set<Code>, b: Cohort, c: Cohort, p: Policy)
    requires b.campaigns != [] && b.campaigns[0].scenarios != [] && Failing(failing, b, c, p)
    ensures var r, all := b.campaigns[0], b.campaigns + c.campaigns;
            && (OwnerMismatch in failing <==> !Agree(OwnerOf, r, all))
            && (PackIdMismatch in failing <==> !Agree(PackIdOf, r, all))
            && (PackVersionMismatch in failing <==> !Agree(PackVersionOf, r, all))
  {
    assert b.campaigns[0] in All(b, c);
    Agreed(OwnerOf, b.campaigns[0], All(b, c));
    Agreed(PackIdOf, b.campaigns[0], All(b, c));
    Agreed(PackVersionOf, b.campaigns[0], All(b, c));
    assert OwnerMismatch in failing <==> Fails(OwnerMismatch, b, c, p);
    assert PackIdMismatch in failing <==> Fails(PackIdMismatch, b, c, p);
    assert PackVersionMismatch in failing <==> Fails(PackVersionMismatch, b, c, p);
  }

  lemma PoliciesFail(failing: set<Code>, b: Cohort, c: Cohort, p: Policy)
    requires b.campaigns != [] && b.campaigns[0].scenarios != [] && Failing(failing, b, c, p)
    ensures var r, all := b.campaigns[0], b.campaigns + c.campaigns;
            && (ScenarioSetMismatch in failing <==> !Agree(ScenariosOf, r, all))
            && (RuntimePolicyMismatch in failing <==> !Agree(GenerationOf, r, all))
            && (ScoringVersionMismatch in failing <==> !Agree(RubricOf, r, all))
  {
    assert b.campaigns[0] in All(b, c);
    Agreed(ScenariosOf, b.campaigns[0], All(b, c));
    Agreed(GenerationOf, b.campaigns[0], All(b, c));
    Agreed(RubricOf, b.campaigns[0], All(b, c));
    assert ScenarioSetMismatch in failing <==> Fails(ScenarioSetMismatch, b, c, p);
    assert RuntimePolicyMismatch in failing <==> Fails(RuntimePolicyMismatch, b, c, p);
    assert ScoringVersionMismatch in failing <==> Fails(ScoringVersionMismatch, b, c, p);
  }

  lemma CohortsFail(failing: set<Code>, b: Cohort, c: Cohort, p: Policy)
    requires b.campaigns != [] && b.campaigns[0].scenarios != [] && Failing(failing, b, c, p)
    ensures RunCountMismatch in failing <==> |b.campaigns| != p.required || |c.campaigns| != p.required
    ensures CampaignVersionMismatch in failing <==>
              !((forall x :: x in b.campaigns ==> x.version == b.version)
                && (forall x :: x in c.campaigns ==> x.version == c.version))
    ensures ItemsMismatch in failing <==> !forall x :: x in b.campaigns + c.campaigns ==> ItemsMatch(x)
  {
    AllFit(All(b, c));
    assert RunCountMismatch in failing <==> Fails(RunCountMismatch, b, c, p);
    assert CampaignVersionMismatch in failing <==> Fails(CampaignVersionMismatch, b, c, p);
    assert ItemsMismatch in failing <==> Fails(ItemsMismatch, b, c, p);
  }

  lemma RunsFail(failing: set<Code>, b: Cohort, c: Cohort, p: Policy)
    requires b.campaigns != [] && b.campaigns[0].scenarios != [] && Failing(failing, b, c, p)
    ensures InfrastructureFailure in failing <==> AnyBroken(b.campaigns + c.campaigns)
    ensures InvalidScorecard in failing <==>
              !AllValid(b.version, Rows(b.campaigns)) || !AllValid(c.version, Rows(c.campaigns))
  {
    UnrecordedExactly(b.campaigns, b.version);
    UnrecordedExactly(c.campaigns, c.version);
    BrokenExactly(All(b, c));
    assert InfrastructureFailure in failing <==> Fails(InfrastructureFailure, b, c, p);
    assert InvalidScorecard in failing <==> Fails(InvalidScorecard, b, c, p);
  }

  function Isolating(failing: set<Code>): Option<Code> {
    if VersionNotIsolated in failing then Some(VersionNotIsolated)
    else if CampaignNotIsolated in failing then Some(CampaignNotIsolated)
    else if RunNotIsolated in failing then Some(RunNotIsolated)
    else None
  }

  function Mismatching(failing: set<Code>): Option<Code> {
    if RunCountMismatch in failing then Some(RunCountMismatch)
    else if CampaignVersionMismatch in failing then Some(CampaignVersionMismatch)
    else if OwnerMismatch in failing then Some(OwnerMismatch)
    else if PackIdMismatch in failing then Some(PackIdMismatch)
    else if PackVersionMismatch in failing then Some(PackVersionMismatch)
    else if ScenarioSetMismatch in failing then Some(ScenarioSetMismatch)
    else if ItemsMismatch in failing then Some(ItemsMismatch)
    else if RuntimePolicyMismatch in failing then Some(RuntimePolicyMismatch)
    else if ScoringVersionMismatch in failing then Some(ScoringVersionMismatch)
    else None
  }

  function Spoiling(failing: set<Code>): Option<Code> {
    if InfrastructureFailure in failing then Some(InfrastructureFailure)
    else if InvalidScorecard in failing then Some(InvalidScorecard)
    else None
  }

  function Earliest(failing: set<Code>): Option<Code> {
    if Isolating(failing).Some? then Isolating(failing)
    else if Mismatching(failing).Some? then Mismatching(failing)
    else Spoiling(failing)
  }

  lemma IsolationExactly(failing: set<Code>, b: Cohort, c: Cohort, p: Policy)
    requires b.campaigns != [] && b.campaigns[0].scenarios != [] && Failing(failing, b, c, p)
    ensures Isolation(b, c) == Isolating(failing)
  {
    IsolationFails(failing, b, c, p);
  }

  lemma BindingExactly(failing: set<Code>, b: Cohort, c: Cohort, p: Policy)
    requires b.campaigns != [] && b.campaigns[0].scenarios != [] && Failing(failing, b, c, p)
    ensures FirstMismatch(b, c, p) == Mismatching(failing)
  {
    CohortsFail(failing, b, c, p);
    FieldsFail(failing, b, c, p);
    PoliciesFail(failing, b, c, p);
  }

  lemma FirstIsEarliest(failing: set<Code>, code: Code)
    requires First(code, failing)
    ensures Earliest(failing) == if Order(code) < 14 then Some(code) else None
  {
    assert forall d :: Order(d) < Order(code) ==> d !in failing;
  }

  lemma MismatchesStatus(failing: set<Code>)
    ensures Isolating(failing).Some? ==> StatusOf(Isolating(failing).value) == Incomparable
    ensures Mismatching(failing).Some? ==> StatusOf(Mismatching(failing).value) == Incomparable
  {
  }

  /** Before any coverage the answer is that of the earliest code that applies. */
  lemma EarlyExactly(failing: set<Code>, b: Cohort, c: Cohort, p: Policy)
    requires b.campaigns != [] && b.campaigns[0].scenarios != [] && Failing(failing, b, c, p)
    ensures var code := Earliest(failing);
            Early(b, c, p) == if code.Some? then Some(Terminal(StatusOf(code.value), 0, code.value)) else None
  {
    IsolationExactly(failing, b, c, p);
    BindingExactly(failing, b, c, p);
    RunsFail(failing, b, c, p);
    MismatchesStatus(failing);
  }

  // ---------- coverage ----------

  /** The scenarios of a list that are covered, where each campaign of the cohort counts for one run. */
  ghost predicate Keeps(covered: seq<string>, ids: seq<string>, cs: seq<Campaign>) {
    Distinct(covered) && forall id :: id in covered <==> id in ids && Finished(cs, id)
  }

  lemma CoveredKeeps(cs: seq<Campaign>, ids: seq<string>)
    requires Distinct(ids) && forall x :: x in cs ==> OneEach(x.items)
    ensures Keeps(Covered(Rows(cs), ids, |cs|), ids, cs)
  {
    var f := IfCovered(Rows(cs), |cs|);
    FlatDistinct(f, ids);
    assert forall i :: 0 <= i < |ids| ==> Distinct(f(ids[i]));
    forall id ensures id in Covered(Rows(cs), ids, |cs|) <==> id in ids && Finished(cs, id) {
      FlatMember(f, ids, id);
      RunsCounted(cs, id);
    }
  }

  lemma CommonKept(a: seq<string>, b: seq<string>)
    requires Distinct(a)
    ensures Distinct(InBoth(a, b)) && forall id :: id in InBoth(a, b) <==> id in a && id in b
  {
    FlatDistinct(IfIn(b), a);
    assert forall i :: 0 <= i < |a| ==> Distinct(IfIn(b)(a[i]));
    forall id ensures id in InBoth(a, b) <==> id in a && id in b { FlatMember(IfIn(b), a, id); }
  }

  /** The same scenarios are covered exactly when the lists are equal. */
  lemma CoveredAlike(rowsB: seq<Row>, rowsC: seq<Row>, ids: seq<string>, required: nat)
    requires forall id :: id in ids ==> (|Group(rowsB, id)| == required <==> |Group(rowsC, id)| == required)
    ensures Covered(rowsB, ids, required) == Covered(rowsC, ids, required)
  {
    FlatSame(IfCovered(rowsB, required), IfCovered(rowsC, required), ids);
  }

  /** What the binding checks leave: as many campaigns a side as required, one item for each scenario. */
  predicate Bound(b: Cohort, c: Cohort, p: Policy)
    requires b.campaigns != []
  {
    && |b.campaigns| == |c.campaigns| == p.required && Distinct(ScenarioIds(b.campaigns[0]))
    && (forall x :: x in b.campaigns ==> OneEach(x.items))
    && forall x :: x in c.campaigns ==> OneEach(x.items)
  }

  lemma BoundWhenFit(failing: set<Code>, b: Cohort, c: Cohort, p: Policy)
    requires b.campaigns != [] && b.campaigns[0].scenarios != [] && Failing(failing, b, c, p)
    requires forall code :: code in failing ==> Order(code) >= 14
    ensures Bound(b, c, p)
  {
    assert Order(RunCountMismatch) == 3 && Order(ItemsMismatch) == 9;
    assert !Fails(RunCountMismatch, b, c, p) && !Fails(ItemsMismatch, b, c, p);
    forall x | x in b.campaigns || x in c.campaigns ensures ItemsFit(x) { assert x in All(b, c); }
    assert b.campaigns[0] in b.campaigns && ItemsFit(b.campaigns[0]);
    DistinctIds(b.campaigns[0]);
  }

  lemma CommonExactly(b: Cohort, c: Cohort, p: Policy)
    requires b.campaigns != [] && b.campaigns[0].scenarios != [] && Bound(b, c, p)
    ensures forall id :: id in Common(b, c, p) <==> id in BothFinished(b, c)
    ensures |Common(b, c, p)| * 10_000 / |b.campaigns[0].scenarios| == Coverage(b, c)
  {
    var ids, common := ScenarioIds(b.campaigns[0]), Common(b, c, p);
    CoveredKeeps(b.campaigns, ids);
    CoveredKeeps(c.campaigns, ids);
    CommonKept(Covered(Rows(b.campaigns), ids, p.required), Covered(Rows(c.campaigns), ids, p.required));
    forall id ensures id in common <==> id in BothFinished(b, c) { KnownIds(b.campaigns[0], id); }
    DistinctCounted(common);
    assert (set id | id in common) == BothFinished(b, c);
  }

  lemma OneSidedExactly(b: Cohort, c: Cohort, p: Policy)
    requires b.campaigns != [] && Bound(b, c, p)
    ensures var ids := ScenarioIds(b.campaigns[0]);
            OneSided(b, c) <==>
              Covered(Rows(b.campaigns), ids, p.required) != Covered(Rows(c.campaigns), ids, p.required)
  {
    var ids := ScenarioIds(b.campaigns[0]);
    CoveredKeeps(b.campaigns, ids);
    CoveredKeeps(c.campaigns, ids);
    if OneSided(b, c) {
      var s :| s in b.campaigns[0].scenarios && Finished(b.campaigns, s.id) != Finished(c.campaigns, s.id);
      KnownIds(b.campaigns[0], s.id);
    } else {
      forall id | id in ids
        ensures |Group(Rows(b.campaigns), id)| == p.required <==> |Group(Rows(c.campaigns), id)| == p.required
      {
        KnownIds(b.campaigns[0], id);
        RunsCounted(b.campaigns, id);
        RunsCounted(c.campaigns, id);
      }
      CoveredAlike(Rows(b.campaigns), Rows(c.campaigns), ids, p.required);
    }
  }

  // ---------- the runs of the covered scenarios ----------

  /** The rows of one side that are compared. */
  lemma RowsCompared(cs: seq<Campaign>, common: seq<string>, covered: set<string>, r: Row)
    requires forall id :: id in common <==> id in covered
    ensures r in RowsOf(Rows(cs), common) <==> FromRun(cs, covered, r)
  {
    RowsOfMembers(Rows(cs), common, r);
    RowsAreItems(cs, r);
  }

  lemma BothCompared(b: Cohort, c: Cohort, common: seq<string>, covered: set<string>, r: Row)
    requires forall id :: id in common <==> id in covered
    ensures r in RowsOf(Rows(b.campaigns), common) + RowsOf(Rows(c.campaigns), common) <==>
              FromRun(All(b, c), covered, r)
  {
    RowsCompared(b.campaigns, common, covered, r);
    RowsCompared(c.campaigns, common, covered, r);
  }

  function AsRow(x: Campaign, i: Item): (r: Row)
    ensures i.state == ItemFinalized ==> IsRow(x, i, r)
  {
    Row(i.scenario, i.runId, i.scorecard, ModelOf(x, i))
  }

  ghost predicate FromRun(all: seq<Campaign>, covered: set<string>, r: Row) {
    exists x, i :: Compared(all, covered, x, i) && IsRow(x, i, r)
  }

  /** The rows are those of the compared runs. */
  ghost predicate RowsOfRuns(rows: seq<Row>, all: seq<Campaign>, covered: set<string>) {
    forall r :: r in rows <==> FromRun(all, covered, r)
  }

  lemma ModelsExactly(rows: seq<Row>, all: seq<Campaign>, covered: set<string>)
    requires RowsOfRuns(rows, all, covered)
    ensures ModelMissing(rows) <==> ModelUnknown(all, covered)
  {
    if x, i :| Compared(all, covered, x, i) && ModelOf(x, i) == "" { assert FromRun(all, covered, AsRow(x, i)); }
  }

  lemma DifferentDigests(rows: seq<Row>, all: seq<Campaign>, covered: set<string>, r: Row, q: Row)
    requires RowsOfRuns(rows, all, covered) && r in rows && q in rows && r.scenario == q.scenario
    requires DigestOf(r) == None || DigestOf(r) != DigestOf(q)
    ensures DigestsVary(all, covered)
  {
    assert FromRun(all, covered, r) && FromRun(all, covered, q);
    var x, i :| Compared(all, covered, x, i) && IsRow(x, i, r);
    var y, j :| Compared(all, covered, y, j) && IsRow(y, j, q);
    assert DigestIn(i) == DigestOf(r) && DigestIn(j) == DigestOf(q);
  }

  lemma DifferentRows(rows: seq<Row>, all: seq<Campaign>, covered: set<string>, ids: seq<string>, x: Campaign, i: Item,
      y: Campaign, j: Item)
    requires RowsOfRuns(rows, all, covered) && forall id :: id in ids <==> id in covered
    requires Compared(all, covered, x, i) && Compared(all, covered, y, j) && i.scenario == j.scenario
    requires DigestIn(i) == None || DigestIn(i) != DigestIn(j)
    ensures DigestsDiffer(rows, ids)
  {
    var r, q, id := AsRow(x, i), AsRow(y, j), i.scenario;
    assert FromRun(all, covered, r) && FromRun(all, covered, q);
    GroupMembers(rows, id, r);
    GroupMembers(rows, id, q);
    assert DigestOf(r) == DigestIn(i) && DigestOf(q) == DigestIn(j);
    assert id in ids && !OneDigest(Group(rows, id));
  }

  /** The digests of a scenario's rows are those of its runs. */
  lemma DigestsExactly(rows: seq<Row>, all: seq<Campaign>, covered: set<string>, ids: seq<string>)
    requires RowsOfRuns(rows, all, covered) && forall id :: id in ids <==> id in covered
    requires forall id :: id in ids ==> Group(rows, id) != []
    ensures DigestsDiffer(rows, ids) <==> DigestsVary(all, covered)
  {
    if DigestsDiffer(rows, ids) {
      var id :| id in ids && !OneDigest(Group(rows, id));
      var r, q :| r in Group(rows, id) && q in Group(rows, id) && (DigestOf(r) == None || DigestOf(r) != DigestOf(q));
      GroupMembers(rows, id, r);
      GroupMembers(rows, id, q);
      DifferentDigests(rows, all, covered, r, q);
    }
    if x, i, y, j :| Compared(all, covered, x, i) && Compared(all, covered, y, j) && i.scenario == j.scenario
                     && (DigestIn(i) == None || DigestIn(i) != DigestIn(j)) {
      DifferentRows(rows, all, covered, ids, x, i, y, j);
    }
  }

  /** A scenario finished in every campaign of a cohort has a row there. */
  lemma FinishedHasRow(cs: seq<Campaign>, covered: set<string>, id: string)
    requires cs != [] && id in covered && Finished(cs, id)
    ensures exists x, i :: Compared(cs, covered, x, i) && i.scenario == id
  {
    assert cs[0] in cs && FinishedIn(cs[0], id);
    var i :| i in cs[0].items && i.scenario == id && i.state == ItemFinalized;
    assert Compared(cs, covered, cs[0], i);
  }

  /** Row n of a scorecard is the only one of dimension d. */
  predicate OnlyRow(rows: seq<DimensionRow>, d: nat, n: nat) {
    && n < |rows| && rows[n].dimension == Some(d)
    && forall m :: 0 <= m < |rows| && m != n ==> rows[m].dimension != Some(d)
  }

  lemma {:induction false} OnlyRowMatches(f: DimensionRow -> seq<DimensionRow>, rows: seq<DimensionRow>, d: nat, n: nat)
    requires (forall row :: f(row) == OfDimension(d, row)) && OnlyRow(rows, d, n)
    ensures Flat(f, rows) == [rows[n]]
  {
    if n == 0 {
      FlatEmpty(f, rows[1..]);
      assert forall row :: row in rows[1..] ==> f(row) == [];
    } else {
      assert f(rows[0]) == [] && OnlyRow(rows[1..], d, n - 1);
      OnlyRowMatches(f, rows[1..], d, n - 1);
    }
  }

  lemma {:induction false} MatchIsOnlyRow(f: DimensionRow -> seq<DimensionRow>, rows: seq<DimensionRow>, d: nat)
      returns (n: nat)
    requires (forall row :: f(row) == OfDimension(d, row)) && |Flat(f, rows)| == 1
    ensures OnlyRow(rows, d, n) && Flat(f, rows) == [rows[n]]
  {
    if rows[0].dimension == Some(d) {
      n := 0;
      FlatEmpty(f, rows[1..]);
      assert forall m :: 0 < m < |rows| ==> rows[m] in rows[1..] && f(rows[m]) == [];
    } else {
      assert f(rows[0]) == [];
      var k := MatchIsOnlyRow(f, rows[1..], d);
      n := k + 1;
      assert forall m :: 0 < m < |rows| ==> rows[m] == rows[1..][m - 1];
    }
  }

  lemma MatchingExactly(card: Scorecard, d: nat, n: nat)
    ensures OnlyRow(card.rows, d, n) ==> Matching(card, d) == [card.rows[n]]
    ensures |Matching(card, d)| == 1 ==> exists m: nat :: OnlyRow(card.rows, d, m)
  {
    var f := (row: DimensionRow) => OfDimension(d, row);
    assert Matching(card, d) == Flat(f, card.rows);
    if OnlyRow(card.rows, d, n) { OnlyRowMatches(f, card.rows, d, n); }
    if |Matching(card, d)| == 1 { var m := MatchIsOnlyRow(f, card.rows, d); }
  }

  predicate GradedIn(card: Scorecard, d: nat) {
    exists n :: 0 <= n < |card.rows| && OnlyRow(card.rows, d, n) && card.rows[n].grade != UnknownGrade
  }

  /** One row with a known grade for each of the six dimensions, and an overall score from 0 to 100. */
  predicate CardFits(card: Scorecard) {
    && card.wellFormed && 0 <= card.overall <= 100 && |card.rows| == 6
    && forall d :: 0 <= d < 6 ==> GradedIn(card, d)
  }

  lemma GradedExactly(card: Scorecard, d: nat)
    ensures GradedIn(card, d) <==> |Matching(card, d)| == 1 && Matching(card, d)[0].grade != UnknownGrade
  {
    if |Matching(card, d)| == 1 {
      MatchingExactly(card, d, 0);
      var m: nat :| OnlyRow(card.rows, d, m);
      MatchingExactly(card, d, m);
    }
    if n :| 0 <= n < |card.rows| && OnlyRow(card.rows, d, n) && card.rows[n].grade != UnknownGrade {
      MatchingExactly(card, d, n);
    }
  }

  lemma CardExactly(card: Scorecard)
    ensures CardValid(card) <==> CardFits(card)
  {
    if CardValid(card) {
      forall d: nat | d < 6 ensures GradedIn(card, d) {
        AllDimensions(d);
        GradedExactly(card, d);
      }
    }
    if CardFits(card) {
      forall d | d in DIMENSIONS ensures |Matching(card, d)| == 1 && Matching(card, d)[0].grade != UnknownGrade {
        AllDimensions(d);
        GradedExactly(card, d);
      }
    }
  }

  /** A compared run whose scorecard is not one. */
  ghost predicate Unscored(cs: seq<Campaign>, covered: set<string>) {
    exists x, i :: Compared(cs, covered, x, i) && (i.scorecard == None || !CardFits(i.scorecard.value))
  }

  lemma CardsExactly(rows: seq<Row>, cs: seq<Campaign>, covered: set<string>)
    requires RowsOfRuns(rows, cs, covered)
    ensures CardsValid(rows) <==> !Unscored(cs, covered)
  {
    forall card { CardExactly(card); }
    if x, i :| Compared(cs, covered, x, i) && (i.scorecard == None || !CardFits(i.scorecard.value)) {
      assert FromRun(cs, covered, AsRow(x, i)) && AsRow(x, i) in rows;
    }
    if r :| r in rows && !(r.scorecard.Some? && CardValid(r.scorecard.value)) {
      assert FromRun(cs, covered, r);
      var x, i :| Compared(cs, covered, x, i) && IsRow(x, i, r);
    }
  }

  /** Both sides can be aggregated exactly when every compared run has a scorecard that fits. */
  lemma AggregatedExactly(rows: seq<Row>, cs: seq<Campaign>, covered: set<string>, ids: seq<string>)
    requires RowsOfRuns(rows, cs, covered) && ids != [] && forall id :: id in ids ==> Group(rows, id) != []
    ensures AggregateOf(rows, ids).Some? <==> !Unscored(cs, covered)
  {
    CardsExactly(rows, cs, covered);
    if CardsValid(rows) {
      var r := Group(rows, ids[0])[0];
      GroupMembers(rows, ids[0], r);
      WithinSpread(rows, r, r);
      WithinSpread(Group(rows, ids[0]), r, r);
      LargestSpread(rows, ids, ids[0], SpreadOf(Flat(OverallOf, Group(rows, ids[0])))[0]);
    }
  }

  lemma CommonRows(cs: seq<Campaign>, common: seq<string>, covered: set<string>)
    requires cs != [] && (forall id :: id in common <==> id in covered)
    requires forall id :: id in common ==> Finished(cs, id)
    ensures RowsOfRuns(RowsOf(Rows(cs), common), cs, covered)
    ensures forall id :: id in common ==> Group(RowsOf(Rows(cs), common), id) != []
  {
    forall r { RowsCompared(cs, common, covered, r); }
    forall id | id in common ensures Group(RowsOf(Rows(cs), common), id) != [] {
      FinishedHasRow(cs, covered, id);
      var x, i :| Compared(cs, covered, x, i) && i.scenario == id;
      assert FromRun(cs, covered, AsRow(x, i));
      GroupMembers(RowsOf(Rows(cs), common), id, AsRow(x, i));
    }
  }

  // ---------- the answer ----------

  function Side(h: Cohort, b: Cohort, c: Cohort, p: Policy): seq<Row>
    requires b.campaigns != []
  {
    RowsOf(Rows(h.campaigns), Common(b, c, p))
  }

  lemma SidesCompared(b: Cohort, c: Cohort, p: Policy)
    requires b.campaigns != [] && c.campaigns != [] && b.campaigns[0].scenarios != [] && Bound(b, c, p)
    ensures var covered, common := BothFinished(b, c), Common(b, c, p);
            && RowsOfRuns(Side(b, b, c, p), b.campaigns, covered) && RowsOfRuns(Side(c, b, c, p), c.campaigns, covered)
            && RowsOfRuns(Side(b, b, c, p) + Side(c, b, c, p), All(b, c), covered)
            && (forall id :: id in common ==> Group(Side(b, b, c, p), id) != [] && Group(Side(c, b, c, p), id) != []
                                              && Group(Side(b, b, c, p) + Side(c, b, c, p), id) != [])
  {
    var covered, common := BothFinished(b, c), Common(b, c, p);
    CommonExactly(b, c, p);
    CommonRows(b.campaigns, common, covered);
    CommonRows(c.campaigns, common, covered);
    forall r { BothCompared(b, c, common, covered, r); }
    forall id { FlatConcat(Picks(id), Side(b, b, c, p), Side(c, b, c, p)); }
  }

  lemma CoverageFails(failing: set<Code>, b: Cohort, c: Cohort, p: Policy)
    requires b.campaigns != [] && b.campaigns[0].scenarios != [] && Failing(failing, b, c, p) && Bound(b, c, p)
    ensures var ids := ScenarioIds(b.campaigns[0]);
            AsymmetricCoverage in failing <==>
              Covered(Rows(b.campaigns), ids, p.required) != Covered(Rows(c.campaigns), ids, p.required)
    ensures MinimumCoverage in failing <==> Coverage(b, c) < p.minCoverage
  {
    OneSidedExactly(b, c, p);
    assert AsymmetricCoverage in failing <==> Fails(AsymmetricCoverage, b, c, p);
    assert MinimumCoverage in failing <==> Fails(MinimumCoverage, b, c, p);
  }

  lemma ModelsFail(failing: set<Code>, b: Cohort, c: Cohort, p: Policy)
    requires b.campaigns != [] && c.campaigns != [] && b.campaigns[0].scenarios != []
    requires Failing(failing, b, c, p) && Bound(b, c, p)
    ensures InvalidModel in failing <==> ModelMissing(Side(b, b, c, p) + Side(c, b, c, p))
  {
    SidesCompared(b, c, p);
    ModelsExactly(Side(b, b, c, p) + Side(c, b, c, p), All(b, c), BothFinished(b, c));
    assert InvalidModel in failing <==> Fails(InvalidModel, b, c, p);
  }

  lemma DigestsFail(failing: set<Code>, b: Cohort, c: Cohort, p: Policy)
    requires b.campaigns != [] && c.campaigns != [] && b.campaigns[0].scenarios != []
    requires Failing(failing, b, c, p) && Bound(b, c, p)
    ensures DigestMismatch in failing <==> DigestsDiffer(Side(b, b, c, p) + Side(c, b, c, p), Common(b, c, p))
  {
    SidesCompared(b, c, p);
    CommonExactly(b, c, p);
    DigestsExactly(Side(b, b, c, p) + Side(c, b, c, p), All(b, c), BothFinished(b, c), Common(b, c, p));
    assert DigestMismatch in failing <==> Fails(DigestMismatch, b, c, p);
  }

  /** From coverage on, by what the codes say. */
  function LateCode(failing: set<Code>): Option<Code> {
    if AsymmetricCoverage in failing then Some(AsymmetricCoverage)
    else if MinimumCoverage in failing then Some(MinimumCoverage)
    else if InvalidModel in failing then Some(InvalidModel)
    else if DigestMismatch in failing then Some(DigestMismatch)
    else None
  }

  lemma FirstIsLate(failing: set<Code>, code: Code)
    requires First(code, failing) && 14 <= Order(code) < 18
    ensures LateCode(failing) == Some(code)
  {
    assert forall d :: Order(d) < Order(code) ==> d !in failing;
  }

  /** What is left once the codes on coverage do not apply. */
  function Judged(failing: set<Code>, b: Cohort, c: Cohort, p: Policy): Outcome
    requires b.campaigns != [] && b.campaigns[0].scenarios != []
  {
    var common, coverage := Common(b, c, p), Coverage(b, c);
    if InvalidModel in failing then Terminal(Incomparable, coverage, InvalidModel)
    else if DigestMismatch in failing then Terminal(Incomparable, coverage, DigestMismatch)
    else
      var rowsB, rowsC := Side(b, b, c, p), Side(c, b, c, p);
      Verdict(AggregateOf(rowsB, common), AggregateOf(rowsC, common), rowsC, coverage, p)
  }

  lemma JudgedExactly(failing: set<Code>, b: Cohort, c: Cohort, p: Policy)
    requires b.campaigns != [] && c.campaigns != [] && b.campaigns[0].scenarios != []
    requires Failing(failing, b, c, p) && Bound(b, c, p)
    ensures JudgeCovered(Rows(b.campaigns), Rows(c.campaigns), Common(b, c, p), Coverage(b, c), p)
         == Judged(failing, b, c, p)
  {
    ModelsFail(failing, b, c, p);
    DigestsFail(failing, b, c, p);
  }

  lemma LateExactly(failing: set<Code>, b: Cohort, c: Cohort, p: Policy)
    requires b.campaigns != [] && c.campaigns != [] && b.campaigns[0].scenarios != []
    requires Failing(failing, b, c, p) && Bound(b, c, p)
    ensures Compare(Rows(b.campaigns), Rows(c.campaigns), ScenarioIds(b.campaigns[0]), p) ==
      if AsymmetricCoverage in failing then Terminal(Incomplete, Coverage(b, c), AsymmetricCoverage)
      else if MinimumCoverage in failing then Terminal(Incomplete, Coverage(b, c), MinimumCoverage)
      else Judged(failing, b, c, p)
  {
    CommonExactly(b, c, p);
    CoverageFails(failing, b, c, p);
    JudgedExactly(failing, b, c, p);
  }

  lemma LateFirst(failing: set<Code>, b: Cohort, c: Cohort, p: Policy, code: Code)
    requires b.campaigns != [] && c.campaigns != [] && b.campaigns[0].scenarios != []
    requires Failing(failing, b, c, p) && Bound(b, c, p) && First(code, failing) && 14 <= Order(code) < 18
    ensures Compare(Rows(b.campaigns), Rows(c.campaigns), ScenarioIds(b.campaigns[0]), p)
         == Terminal(StatusOf(code), Coverage(b, c), code)
  {
    LateExactly(failing, b, c, p);
    FirstIsLate(failing, code);
  }

  lemma EachIsOrdered(failing: set<Code>, b: Cohort, c: Cohort, p: Policy, code: Code)
    requires b.campaigns != [] && b.campaigns[0].scenarios != [] && Failing(failing, b, c, p) && code in failing
    ensures Order(code) < 18
  {
    assert Fails(code, b, c, p);
  }

  /** The answer is that of the earliest code that applies. */
  lemma EvaluateExactly(failing: set<Code>, b: Cohort, c: Cohort, p: Policy, code: Code)
    requires ValidInput(b, c, p) && Failing(failing, b, c, p) && First(code, failing)
    ensures var coverage := if Order(code) < 14 then 0 else Coverage(b, c);
            Evaluate(b, c, p) == Outcome(StatusOf(code), coverage, [Finding(code, None, None, None)], None, None)
  {
    EarlyExactly(failing, b, c, p);
    FirstIsEarliest(failing, code);
    EachIsOrdered(failing, b, c, p, code);
    if Order(code) >= 14 {
      BoundWhenFit(failing, b, c, p);
      LateFirst(failing, b, c, p, code);
    }
  }

  lemma NoneEarly()
    ensures Earliest({}) == None
  {
  }

  lemma Aggregated(b: Cohort, c: Cohort, p: Policy)
    requires b.campaigns != [] && c.campaigns != [] && b.campaigns[0].scenarios != [] && Bound(b, c, p)
    requires Coverage(b, c) > 0
    ensures AggregateOf(Side(b, b, c, p), Common(b, c, p)).Some? <==> !Unscored(b.campaigns, BothFinished(b, c))
    ensures AggregateOf(Side(c, b, c, p), Common(b, c, p)).Some? <==> !Unscored(c.campaigns, BothFinished(b, c))
  {
    SidesCompared(b, c, p);
    CommonExactly(b, c, p);
    assert Common(b, c, p) != [];
    AggregatedExactly(Side(b, b, c, p), b.campaigns, BothFinished(b, c), Common(b, c, p));
    AggregatedExactly(Side(c, b, c, p), c.campaigns, BothFinished(b, c), Common(b, c, p));
  }

  /** A compared run of the candidate reports a critical code. */
  ghost predicate ReportsCritical(c: Cohort, covered: set<string>, p: Policy) {
    exists x, i, code :: Compared(c.campaigns, covered, x, i) && i.scorecard.Some? && code in i.scorecard.value.findings
                         && code in p.critical
  }

  lemma CriticalExactly(rows: seq<Row>, c: Cohort, covered: set<string>, p: Policy)
    requires RowsOfRuns(rows, c.campaigns, covered)
    ensures CriticalCodes(rows, p) == {} <==> !ReportsCritical(c, covered, p)
  {
    NoCritical(rows, p);
    if code :| code in Flat(CodesOf, rows) && code in p.critical {
      FlatMember(CodesOf, rows, code);
      var r :| r in rows && code in CodesOf(r);
      assert FromRun(c.campaigns, covered, r);
      var x, i :| Compared(c.campaigns, covered, x, i) && IsRow(x, i, r);
    }
    if x, i, code :| Compared(c.campaigns, covered, x, i) && i.scorecard.Some? && code in i.scorecard.value.findings
                     && code in p.critical {
      var r := AsRow(x, i);
      assert FromRun(c.campaigns, covered, r) && code in CodesOf(r);
      FlatMember(CodesOf, rows, code);
    }
  }

  lemma CoveredEnough(b: Cohort, c: Cohort, p: Policy)
    requires b.campaigns != [] && b.campaigns[0].scenarios != [] && Failing({}, b, c, p) && p.minCoverage >= 1
    ensures Coverage(b, c) > 0
  {
    assert !Fails(MinimumCoverage, b, c, p);
  }

  lemma JudgedWhole(b: Cohort, c: Cohort, p: Policy)
    requires ValidInput(b, c, p) && Failing({}, b, c, p)
    ensures Bound(b, c, p) && Evaluate(b, c, p) == Judged({}, b, c, p)
  {
    EarlyExactly({}, b, c, p);
    NoneEarly();
    BoundWhenFit({}, b, c, p);
    LateExactly({}, b, c, p);
  }

  /** What is judged where each side can be aggregated, or not. */
  lemma VerdictCases(x: Option<Aggregate>, y: Option<Aggregate>, rows: seq<Row>, coverage: nat, p: Policy)
    ensures var o := Verdict(x, y, rows, coverage, p);
            && o.coverage == coverage
            && (x == None || y == None ==>
                  o == Outcome(InfrastructureError, coverage, [Finding(InvalidScorecard, None, None, None)], None,
                         None))
            && (x != None && y != None ==> o.baseline == x && o.candidate == y)
  {
  }

  /** Where no code applies, a compared run without a scorecard that fits ends the comparison... */
  lemma UnscoredExactly(b: Cohort, c: Cohort, p: Policy)
    requires ValidInput(b, c, p) && Failing({}, b, c, p)
    ensures var o, covered := Evaluate(b, c, p), BothFinished(b, c);
            && o.coverage == Coverage(b, c)
            && (Unscored(b.campaigns, covered) || Unscored(c.campaigns, covered) ==>
                  o == Outcome(InfrastructureError, Coverage(b, c), [Finding(InvalidScorecard, None, None, None)], None,
                         None))
            && (!Unscored(b.campaigns, covered) && !Unscored(c.campaigns, covered) ==>
                  && o.baseline == AggregateOf(Side(b, b, c, p), Common(b, c, p)) != None
                  && o.candidate == AggregateOf(Side(c, b, c, p), Common(b, c, p)) != None)
  {
    CoveredEnough(b, c, p);
    JudgedWhole(b, c, p);
    var rowsB, rowsC, common := Side(b, b, c, p), Side(c, b, c, p), Common(b, c, p);
    VerdictCases(AggregateOf(rowsB, common), AggregateOf(rowsC, common), rowsC, Coverage(b, c), p);
    Aggregated(b, c, p);
  }

  /** ...and otherwise the spreads, the bounds and the critical codes decide. */
  lemma ScoredExactly(b: Cohort, c: Cohort, p: Policy)
    requires ValidInput(b, c, p) && Failing({}, b, c, p)
    requires !Unscored(b.campaigns, BothFinished(b, c)) && !Unscored(c.campaigns, BothFinished(b, c))
    ensures var o := Evaluate(b, c, p);
            && o.baseline.Some? && o.candidate.Some? && o.status in {Unstable, Pass, Regression}
            && (o.status == Unstable <==> !(Steady(o.baseline.value, p) && Steady(o.candidate.value, p)))
            && (o.status == Pass <==>
                  && Steady(o.baseline.value, p) && Steady(o.candidate.value, p)
                  && !ReportsCritical(c, BothFinished(b, c), p)
                  && WithinBounds(o.baseline.value, o.candidate.value, p)
                  && !AnyRoundedUp(o.baseline.value, o.candidate.value, p))
  {
    UnscoredExactly(b, c, p);
    JudgedWhole(b, c, p);
    SidesCompared(b, c, p);
    var rowsB, rowsC, common := Side(b, b, c, p), Side(c, b, c, p), Common(b, c, p);
    CriticalExactly(rowsC, c, BothFinished(b, c), p);
    AggregateInScale(rowsB, common);
    AggregateInScale(rowsC, common);
    VerdictExactly(AggregateOf(rowsB, common).value, AggregateOf(rowsC, common).value, rowsC, Coverage(b, c), p);
  }

  // ---------- what an aggregate is ----------

  /** The points of a row in dimension d: none for a grade that is not applicable. */
  lemma PointsExactly(d: nat, r: Row, n: nat)
    requires r.scorecard.Some? && CardFits(r.scorecard.value) && OnlyRow(r.scorecard.value.rows, d, n)
    ensures PointsOf(d, r) == match r.scorecard.value.rows[n].grade
                              case Excellent => [100]
                              case Good => [80]
                              case Mixed => [60]
                              case Poor => [30]
                              case Fail => [0]
                              case _ => []
  {
    MatchingExactly(r.scorecard.value, d, n);
  }

  /** A mean is the sum in hundredths over the number, rounded down. */
  predicate IsMean(m: int, s: seq<int>) {
    s != [] && m * |s| <= 100 * Sum(s) < (m + 1) * |s|
  }

  lemma MeanIs(s: seq<int>)
    requires s != []
    ensures IsMean(Mean(s), s)
  {
    Quotient(Sum(s) * 100, |s|);
    assert (Mean(s) + 1) * |s| == Mean(s) * |s| + |s|;
  }

  /** A run of the scenario has the value. */
  predicate HasValue(f: Row -> seq<int>, rows: seq<Row>, id: string, v: int) {
    exists r :: r in rows && r.scenario == id && v in f(r)
  }

  /** The largest difference of two values of runs of one scenario. */
  ghost predicate IsSpread(spread: int, f: Row -> seq<int>, rows: seq<Row>, ids: seq<string>) {
    && (forall id, v, w :: id in ids && HasValue(f, rows, id, v) && HasValue(f, rows, id, w) ==> v - w <= spread)
    && exists id, v, w :: id in ids && HasValue(f, rows, id, v) && HasValue(f, rows, id, w) && v - w == spread
  }

  lemma GroupValues(f: Row -> seq<int>, rows: seq<Row>, id: string, v: int)
    ensures v in Flat(f, Group(rows, id)) <==> HasValue(f, rows, id, v)
  {
    FlatMember(f, Group(rows, id), v);
    forall r { GroupMembers(rows, id, r); }
  }

  lemma SpreadBound(f: Row -> seq<int>, rows: seq<Row>, ids: seq<string>, id: string, v: int, w: int)
    requires id in ids && HasValue(f, rows, id, v) && HasValue(f, rows, id, w)
    ensures Spreads(f, rows, ids) != [] && v - w <= Max(Spreads(f, rows, ids))
  {
    var values := Flat(f, Group(rows, id));
    GroupValues(f, rows, id, v);
    GroupValues(f, rows, id, w);
    assert SpreadIn(f, rows)(id) == [Max(values) - Min(values)];
    FlatMember(SpreadIn(f, rows), ids, Max(values) - Min(values));
  }

  lemma SpreadReached(f: Row -> seq<int>, rows: seq<Row>, ids: seq<string>) returns (id: string, v: int, w: int)
    requires Spreads(f, rows, ids) != []
    ensures id in ids && HasValue(f, rows, id, v) && HasValue(f, rows, id, w) && v - w == Max(Spreads(f, rows, ids))
  {
    var largest := Max(Spreads(f, rows, ids));
    FlatMember(SpreadIn(f, rows), ids, largest);
    id :| id in ids && largest in SpreadIn(f, rows)(id);
    var values := Flat(f, Group(rows, id));
    v, w := Max(values), Min(values);
    GroupValues(f, rows, id, v);
    GroupValues(f, rows, id, w);
  }

  lemma SpreadIs(f: Row -> seq<int>, rows: seq<Row>, ids: seq<string>)
    requires Spreads(f, rows, ids) != []
    ensures IsSpread(Max(Spreads(f, rows, ids)), f, rows, ids)
  {
    forall id, v, w | id in ids && HasValue(f, rows, id, v) && HasValue(f, rows, id, w)
      ensures v - w <= Max(Spreads(f, rows, ids))
    {
      SpreadBound(f, rows, ids, id, v, w);
    }
    var id, v, w := SpreadReached(f, rows, ids);
  }

  /** Where a dimension has any points there is a spread. */
  lemma SpreadGiven(f: Row -> seq<int>, rows: seq<Row>, ids: seq<string>)
    requires forall r :: r in rows ==> r.scenario in ids
    ensures Spreads(f, rows, ids) == [] <==> forall r :: r in rows ==> f(r) == []
  {
    FlatEmpty(SpreadIn(f, rows), ids);
    forall id ensures SpreadIn(f, rows)(id) == [] <==> forall r :: r in rows && r.scenario == id ==> f(r) == [] {
      FlatEmpty(f, Group(rows, id));
      forall r { GroupMembers(rows, id, r); }
    }
  }

  lemma OverallExactly(rows: seq<Row>, ids: seq<string>)
    requires AggregateOf(rows, ids).Some?
    ensures IsMean(AggregateOf(rows, ids).value.overall, Flat(OverallOf, rows))
    ensures IsSpread(AggregateOf(rows, ids).value.overallSpread, OverallOf, rows, ids)
  {
    MeanIs(Flat(OverallOf, rows));
    SpreadIs(OverallOf, rows, ids);
  }

  /** Mean and spread of the values of one kind, where there are any. */
  ghost predicate Summed(mean: Option<int>, spread: Option<int>, f: Row -> seq<int>, rows: seq<Row>, ids: seq<string>) {
    if Flat(f, rows) == [] then mean == None && spread == None
    else mean.Some? && IsMean(mean.value, Flat(f, rows)) && spread.Some? && IsSpread(spread.value, f, rows, ids)
  }

  lemma DimensionExactly(rows: seq<Row>, ids: seq<string>, d: nat)
    requires forall r :: r in rows ==> r.scenario in ids
    ensures Summed(DimensionMean(rows, d), DimensionSpread(rows, ids, d), PointsFor(d), rows, ids)
  {
    FlatEmpty(PointsFor(d), rows);
    SpreadGiven(PointsFor(d), rows, ids);
    if Flat(PointsFor(d), rows) != [] {
      MeanIs(Flat(PointsFor(d), rows));
      SpreadIs(PointsFor(d), rows, ids);
    }
  }

  lemma DimensionsOf(rows: seq<Row>, ids: seq<string>, d: nat)
    requires AggregateOf(rows, ids).Some? && d < 6
    ensures var a := AggregateOf(rows, ids).value;
            a.dimensions[d] == DimensionMean(rows, d) && a.spreads[d] == DimensionSpread(rows, ids, d)
  {
  }

  /** The means and spreads of an aggregate, overall and in each of the six dimensions. */
  lemma AggregateExactly(rows: seq<Row>, ids: seq<string>, d: nat)
    requires AggregateOf(rows, ids).Some? && d < 6 && forall r :: r in rows ==> r.scenario in ids
    ensures var a := AggregateOf(rows, ids).value;
            && IsMean(a.overall, Flat(OverallOf, rows)) && IsSpread(a.overallSpread, OverallOf, rows, ids)
            && Summed(a.dimensions[d], a.spreads[d], PointsFor(d), rows, ids)
  {
    OverallExactly(rows, ids);
    DimensionsOf(rows, ids, d);
    DimensionExactly(rows, ids, d);
  }
}
