// The solo evaluation campaign as a step machine: packages/evaluation/src/solo-runner.ts:127-280.
// A step is what one operation does up to its next await or its next stored record; a crash may come
// between any two steps. Any number of processes may advance one campaign, each with its own copy of it.
// Provider and run tracker are oracles: what they answer is part of the event.

module SoloCampaign {
  import opened Wrappers
  import opened Canonical
  import S = Sequences

  datatype ItemState = Pending | Generating | Retryable | Judging | Uncertain | Finalized | Failed
  datatype Item = Item(scenario: string, state: ItemState, attempt: nat, runIds: seq<string>, current: Option<string>,
      scorecard: Option<string>)
  datatype CampaignState = CampaignPending | Running | CampaignUncertain | CampaignFinalized | CampaignFailed
  datatype Campaign = Campaign(state: CampaignState, items: seq<Item>)

  datatype Provider = ProviderPending | ProviderSuccess | ProviderFailed
  datatype Judge = NotSubmitted | Submitted | Recovery | JudgeFailed | JudgeFinalized(scorecard: string)
  datatype Run = Run(provider: Provider, judge: Judge)

  datatype Scenario = Scenario(id: string, version: string)
  datatype Config = Config(
    campaignId: Digest, versionId: Digest, packId: Digest, packVersion: string,
    scenarios: seq<Scenario>, maxAttempts: nat, hash: string -> string)

  /** What validateInput leaves: 1 to 32 scenarios with distinct identifiers, 1 to 3 attempts. */
  predicate ValidConfig(c: Config) {
    && IsDigest(c.campaignId) && IsDigest(c.versionId) && IsDigest(c.packId)
    && 1 <= |c.scenarios| <= 32 && 1 <= c.maxAttempts <= 3
    && (forall i :: 0 <= i < |c.scenarios| ==> Without(c.scenarios[i].id, BAR))
    && (forall i, j :: 0 <= i < j < |c.scenarios| ==> c.scenarios[i].id != c.scenarios[j].id)
  }

  // ---------- run identifiers ----------

  const RUBRIC: string := "AgentEvaluationV5"

  function RunText(c: Config, i: nat, attempt: nat): string
    requires i < |c.scenarios|
  {
    "arena-solo-run-v1" + [BAR] + c.campaignId.text + [BAR] + c.versionId.text + [BAR] + c.packId.text + [BAR]
      + c.packVersion + [BAR]
    + (c.scenarios[i].id + [BAR] + (c.scenarios[i].version + [BAR] + (Decimal(attempt) + [BAR] + RUBRIC)))
  }

  function RunId(c: Config, i: nat, attempt: nat): string
    requires i < |c.scenarios|
  {
    c.hash(RunText(c, i, attempt))
  }

  /** Assumed of the hash: no collision among the texts of this campaign's own runs, which are at most
      scenarios x maxProviderAttempts. */
  ghost predicate NoCollision(c: Config) {
    forall i, a, j, b ::
      0 <= i < |c.scenarios| && 1 <= a <= c.maxAttempts && 0 <= j < |c.scenarios| && 1 <= b <= c.maxAttempts ==>
        (RunId(c, i, a) == RunId(c, j, b) ==> RunText(c, i, a) == RunText(c, j, b))
  }

  lemma CancelLeft(p: string, a: string, b: string)
    requires p + a == p + b
    ensures a == b
  {
    assert (p + a)[|p|..] == a && (p + b)[|p|..] == b;
  }

  lemma CancelRight(a: string, b: string, p: string)
    requires a + p == b + p
    ensures a == b
  {
    assert |a| == |b|;
    assert (a + p)[..|a|] == a && (b + p)[..|b|] == b;
  }

  /** A run text names its scenario and attempt, whatever bars the pack and scenario versions hold. */
  lemma RunTextInjective(c: Config, i: nat, a: nat, j: nat, b: nat)
    requires ValidConfig(c) && i < |c.scenarios| && j < |c.scenarios|
    requires RunText(c, i, a) == RunText(c, j, b)
    ensures i == j && a == b
  {
    var head := "arena-solo-run-v1" + [BAR] + c.campaignId.text + [BAR] + c.versionId.text + [BAR] + c.packId.text
      + [BAR] + c.packVersion + [BAR];
    var tailI := c.scenarios[i].version + [BAR] + (Decimal(a) + [BAR] + RUBRIC);
    var tailJ := c.scenarios[j].version + [BAR] + (Decimal(b) + [BAR] + RUBRIC);
    CancelLeft(head, c.scenarios[i].id + [BAR] + tailI, c.scenarios[j].id + [BAR] + tailJ);
    SplitAt(BAR, c.scenarios[i].id, tailI, c.scenarios[j].id, tailJ);
    assert i == j;
    var v := c.scenarios[i].version + [BAR];
    assert tailI == v + (Decimal(a) + [BAR] + RUBRIC) && tailJ == v + (Decimal(b) + [BAR] + RUBRIC);
    CancelLeft(v, Decimal(a) + [BAR] + RUBRIC, Decimal(b) + [BAR] + RUBRIC);
    assert Decimal(a) + [BAR] + RUBRIC == Decimal(a) + ([BAR] + RUBRIC)
      && Decimal(b) + [BAR] + RUBRIC == Decimal(b) + ([BAR] + RUBRIC);
    CancelRight(Decimal(a), Decimal(b), [BAR] + RUBRIC);
    DecimalRoundTrip(a);
    DecimalRoundTrip(b);
  }

  lemma RunIdInjective(c: Config, i: nat, a: nat, j: nat, b: nat)
    requires ValidConfig(c) && NoCollision(c) && i < |c.scenarios| && j < |c.scenarios|
    requires 1 <= a <= c.maxAttempts && 1 <= b <= c.maxAttempts
    ensures RunId(c, i, a) == RunId(c, j, b) ==> i == j && a == b
  {
    if RunId(c, i, a) == RunId(c, j, b) { RunTextInjective(c, i, a, j, b); }
  }

  // ---------- the machine ----------

  /** Where an advance waits, with its own copy of the campaign. */
  datatype Pc =
    | Idle
    | Created(copy: Campaign, index: nat)
    | Opened(copy: Campaign, index: nat)
    | AwaitingProvider(copy: Campaign, index: nat)
    | Recorded(copy: Campaign, index: nat)
    | AwaitingSubmit(copy: Campaign, index: nat)
    | AwaitingPoll(copy: Campaign, index: nat)

  /** What one process works on: the stored records and its own advance. `called` are the runs the provider has
      been called for, `interrupted` those of them whose advance crashed while it waited, and `repeats` counts
      the calls for a run called for before. */
  datatype State = State(
    campaign: Campaign, runs: map<string, Run>, pc: Pc, calls: nat, crashes: nat,
    called: set<string>, interrupted: set<string>, repeats: nat)

  /** `agrees` matters for a run that has an answer already: whether the new answer, or the class of the
      error it leads to, is the recorded one. */
  datatype Action =
    | AdvanceBegins
    | Continues
    | ProviderAnswers(success: bool, agrees: bool)
    | SubmitEnds(judge: Judge)
    | PollThrows(judge: Judge)
    | PollEnds(judge: Judge)
    | InfrastructureFails
    | Crash

  /** The stored records and the advances of all processes. */
  datatype System = System(
    campaign: Campaign, runs: map<string, Run>, advances: map<nat, Pc>, calls: nat, crashes: nat,
    called: set<string>, interrupted: set<string>, repeats: nat)
  datatype Event = Event(process: nat, action: Action)

  function FirstOpen(items: seq<Item>): (k: nat)
    ensures k <= |items|
    ensures forall i :: 0 <= i < k ==> items[i].state == Finalized
    ensures k < |items| ==> items[k].state != Finalized
  {
    if items == [] || items[0].state != Finalized then 0 else 1 + FirstOpen(items[1..])
  }

  predicate Terminal(state: CampaignState) {
    state == CampaignFinalized || state == CampaignFailed || state == CampaignUncertain
  }

  function UpdateItem(c: Campaign, k: nat, item: Item, state: CampaignState): Campaign {
    if k < |c.items| then Campaign(state, c.items[k := item]) else c.(state := state)
  }

  function Fresh(id: string): Item {
    Item(id, Pending, 0, [], None, None)
  }

  function FreshItems(c: Config): (items: seq<Item>)
    ensures |items| == |c.scenarios|
  {
    seq(|c.scenarios|, i requires 0 <= i < |c.scenarios| => Fresh(c.scenarios[i].id))
  }

  function Start(c: Config): System {
    System(Campaign(CampaignPending, FreshItems(c)), map[], map[], 0, 0, {}, {}, 0)
  }

  function Put(s: State, campaign: Campaign, pc: Pc): State {
    s.(campaign := campaign, pc := pc)
  }

  function ProviderFailure(c: Config, copy: Campaign, k: nat): Campaign
    requires k < |copy.items|
  {
    var item := copy.items[k];
    if item.attempt < c.maxAttempts then UpdateItem(copy, k, item.(state := Retryable, current := None), Running)
    else UpdateItem(copy, k, item.(state := Failed), CampaignFailed)
  }

  function Abort(copy: Campaign, k: nat): Campaign
    requires k < |copy.items|
  {
    UpdateItem(copy, k, copy.items[k].(state := Failed), CampaignFailed)
  }

  /** Lines 201-217: from a provider that has answered to the wait for the judge. */
  function AfterProvider(c: Config, s: State, copy: Campaign, k: nat, run: Run): State
    requires k < |copy.items|
  {
    if run.provider != ProviderSuccess then Put(s, ProviderFailure(c, copy, k), Idle)
    else
      var judging := UpdateItem(copy, k, copy.items[k].(state := Judging), Running);
      Put(s, judging, if run.judge == NotSubmitted then AwaitingSubmit(judging, k) else AwaitingPoll(judging, k))
  }

  /** Lines 182-199: the current run is generated for, if it has no answer yet; a missing run throws. */
  function WithRun(c: Config, s: State, copy: Campaign, k: nat): State
    requires k < |copy.items| && copy.items[k].current.Some?
  {
    var id := copy.items[k].current.value;
    if id !in s.runs then s.(pc := Idle)
    else if s.runs[id].provider == ProviderPending then
      s.(pc := AwaitingProvider(copy, k), calls := s.calls + 1, called := s.called + {id},
         repeats := s.repeats + if id in s.called then 1 else 0)
    else AfterProvider(c, s, copy, k, s.runs[id])
  }

  /** createRun keeps an existing run. */
  function Create(s: State, id: string, k: nat): State {
    s.(runs := if id in s.runs then s.runs else s.runs[id := Run(ProviderPending, NotSubmitted)],
       pc := Created(s.campaign, k))
  }

  function Begin(c: Config, s: State): State {
    if s.pc != Idle || Terminal(s.campaign.state) then s
    else
      var k := FirstOpen(s.campaign.items);
      if k >= |s.campaign.items| then Put(s, s.campaign.(state := CampaignFinalized), Idle)
      else if s.campaign.items[k].current.Some? then WithRun(c, s, s.campaign, k)
      else if k < |c.scenarios| then Create(s, RunId(c, k, s.campaign.items[k].attempt + 1), k)
      else s
  }

  /** Line 177: the item as stored when its run exists. */
  function NextAttempt(c: Config, item: Item, k: nat): Item
    requires k < |c.scenarios|
  {
    var id := RunId(c, k, item.attempt + 1);
    Item(c.scenarios[k].id, Generating, item.attempt + 1, item.runIds + [id], Some(id), None)
  }

  /** The copy's open item has a stored run. */
  predicate HasRun(runs: map<string, Run>, copy: Campaign, k: nat) {
    k < |copy.items| && copy.items[k].current.Some? && copy.items[k].current.value in runs
  }

  function RunAt(runs: map<string, Run>, copy: Campaign, k: nat): Run
    requires HasRun(runs, copy, k)
  {
    runs[copy.items[k].current.value]
  }

  function Continue(c: Config, s: State): State {
    match s.pc
    case Created(copy, k) =>
      if k < |copy.items| && k < |c.scenarios| then
        var next := UpdateItem(copy, k, NextAttempt(c, copy.items[k], k), Running);
        Put(s, next, Opened(next, k))
      else s
    case Opened(copy, k) => if HasRun(s.runs, copy, k) then WithRun(c, s, copy, k) else s
    case Recorded(copy, k) =>
      if HasRun(s.runs, copy, k) then AfterProvider(c, s, copy, k, RunAt(s.runs, copy, k)) else s
    case _ => s
  }

  function JudgeStep(s: State, copy: Campaign, k: nat, judge: Judge): State
    requires HasRun(s.runs, copy, k)
  {
    s.(runs := s.runs[copy.items[k].current.value := RunAt(s.runs, copy, k).(judge := judge)])
  }

  /** Lines 225-241: what a poll that returned makes of the campaign. */
  function Polled(copy: Campaign, k: nat, judge: Judge): Campaign
    requires k < |copy.items|
  {
    var item := copy.items[k];
    match judge
    case Recovery => UpdateItem(copy, k, item.(state := Uncertain), CampaignUncertain)
    case JudgeFailed => Abort(copy, k)
    case JudgeFinalized(scorecard) =>
      var next := UpdateItem(copy, k, item.(state := Finalized, scorecard := Some(scorecard)), Running);
      if FirstOpen(next.items) == |next.items| then next.(state := CampaignFinalized) else next
    case _ => UpdateItem(copy, k, item, Running)
  }

  function FailInfrastructure(campaign: Campaign): Campaign {
    if Terminal(campaign.state) then campaign
    else
      var k := FirstOpen(campaign.items);
      if k >= |campaign.items| then campaign.(state := CampaignFailed) else Abort(campaign, k)
  }

  /** Lines 185-198: the first answer is recorded. A later one that differs throws, and is recorded by
      nobody when recordProviderFailure throws as well. */
  function ProviderAnswer(s: State, success: bool, agrees: bool): State {
    if s.pc.AwaitingProvider? && HasRun(s.runs, s.pc.copy, s.pc.index) then
      var id, run := s.pc.copy.items[s.pc.index].current.value, RunAt(s.runs, s.pc.copy, s.pc.index);
      if run.provider == ProviderPending then
        s.(runs := s.runs[id := run.(provider := if success then ProviderSuccess else ProviderFailed)],
           pc := Recorded(s.pc.copy, s.pc.index))
      else if agrees && (success || run.provider == ProviderFailed) then s.(pc := Recorded(s.pc.copy, s.pc.index))
      else s.(pc := Idle)
    else s
  }

  /** Lines 209-217: a submission that failed before anything was persisted fails the campaign. */
  function SubmitEnd(s: State, judge: Judge): State {
    if s.pc.AwaitingSubmit? && HasRun(s.runs, s.pc.copy, s.pc.index) then
      var t := JudgeStep(s, s.pc.copy, s.pc.index, judge);
      if judge == NotSubmitted then Put(t, Abort(s.pc.copy, s.pc.index), Idle)
      else t.(pc := AwaitingPoll(s.pc.copy, s.pc.index))
    else s
  }

  function PollThrow(s: State, judge: Judge): State {
    if s.pc.AwaitingPoll? && HasRun(s.runs, s.pc.copy, s.pc.index) && !judge.NotSubmitted? then
      Put(JudgeStep(s, s.pc.copy, s.pc.index, judge),
          UpdateItem(s.pc.copy, s.pc.index, s.pc.copy.items[s.pc.index], Running), Idle)
    else s
  }

  function PollEnd(s: State, judge: Judge): State {
    if s.pc.AwaitingPoll? && HasRun(s.runs, s.pc.copy, s.pc.index) && !judge.NotSubmitted? then
      Put(JudgeStep(s, s.pc.copy, s.pc.index, judge), Polled(s.pc.copy, s.pc.index, judge), Idle)
    else s
  }

  /** The run an advance waits on the provider for. */
  function Waited(pc: Pc): set<string> {
    if pc.AwaitingProvider? && pc.index < |pc.copy.items| && pc.copy.items[pc.index].current.Some?
    then {pc.copy.items[pc.index].current.value} else {}
  }

  /** One step; an action that does not apply changes nothing. */
  function Next(c: Config, s: State, a: Action): State {
    match a
    case AdvanceBegins => Begin(c, s)
    case Continues => Continue(c, s)
    case ProviderAnswers(success, agrees) => ProviderAnswer(s, success, agrees)
    case SubmitEnds(judge) => SubmitEnd(s, judge)
    case PollThrows(judge) => PollThrow(s, judge)
    case PollEnds(judge) => PollEnd(s, judge)
    case InfrastructureFails => s.(campaign := FailInfrastructure(s.campaign))
    case Crash => s.(pc := Idle, crashes := s.crashes + 1, interrupted := s.interrupted + Waited(s.pc))
  }

  function PcOf(s: System, process: nat): Pc {
    if process in s.advances then s.advances[process] else Idle
  }

  function View(s: System, process: nat): State {
    State(s.campaign, s.runs, PcOf(s, process), s.calls, s.crashes, s.called, s.interrupted, s.repeats)
  }

  function Step(c: Config, s: System, e: Event): System {
    var t := Next(c, View(s, e.process), e.action);
    System(
      t.campaign, t.runs, s.advances[e.process := t.pc], t.calls, t.crashes, t.called, t.interrupted, t.repeats)
  }

  function Play(c: Config, s: System, events: seq<Event>): System {
    if events == [] then s else Step(c, Play(c, s, events[..|events| - 1]), events[|events| - 1])
  }

  // ---------- campaigns and copies, however advances overlap ----------

  /** An item's runs are those of its attempts, in order; one that is not waiting for a new attempt works on
      the last. */
  predicate ItemShape(c: Config, i: nat, item: Item)
    requires i < |c.scenarios|
  {
    && item.scenario == c.scenarios[i].id
    && |item.runIds| == item.attempt <= c.maxAttempts
    && (forall a :: 0 <= a < item.attempt ==> item.runIds[a] == RunId(c, i, a + 1))
    && (item.state == Pending ==> item == Fresh(c.scenarios[i].id))
    && (item.state == Retryable ==> item.current == None && item.attempt < c.maxAttempts)
    && (item.state != Pending && item.state != Retryable && item.state != Failed ==> item.current.Some?)
    && (item.current.Some? ==> item.attempt > 0 && item.current.value == item.runIds[item.attempt - 1])
    && (item.scorecard.Some? <==> item.state == Finalized)
  }

  predicate StateFits(state: CampaignState, items: seq<Item>) {
    var k := FirstOpen(items);
    && (state == CampaignFinalized <==> k == |items|)
    && (k < |items| ==>
         && (state == CampaignFailed <==> items[k].state == Failed)
         && (state == CampaignUncertain <==> items[k].state == Uncertain)
         && (state == CampaignPending ==> k == 0 && items[0].state == Pending))
  }

  /** FINALIZED items, then at most one that is under way, then untouched ones. */
  predicate Shape(c: Config, campaign: Campaign) {
    && |campaign.items| == |c.scenarios|
    && (forall i :: 0 <= i < |campaign.items| ==> ItemShape(c, i, campaign.items[i]))
    && (forall i :: FirstOpen(campaign.items) < i < |campaign.items| ==> campaign.items[i].state == Pending)
    && StateFits(campaign.state, campaign.items)
  }

  /** A copy an advance may have taken: of a campaign that had not ended. */
  predicate OpenAt(c: Config, copy: Campaign, k: nat) {
    Shape(c, copy) && k == FirstOpen(copy.items) < |copy.items| && !Terminal(copy.state)
  }

  predicate PcSound(c: Config, pc: Pc, runs: map<string, Run>) {
    match pc
    case Idle => true
    case Created(copy, k) =>
      OpenAt(c, copy, k) && copy.items[k].current == None && RunId(c, k, copy.items[k].attempt + 1) in runs
    case Opened(copy, k) => OpenAt(c, copy, k) && HasRun(runs, copy, k)
    case AwaitingProvider(copy, k) => OpenAt(c, copy, k) && HasRun(runs, copy, k)
    case Recorded(copy, k) =>
      OpenAt(c, copy, k) && HasRun(runs, copy, k) && RunAt(runs, copy, k).provider != ProviderPending
    case AwaitingSubmit(copy, k) => OpenAt(c, copy, k) && HasRun(runs, copy, k) && copy.items[k].state == Judging
    case AwaitingPoll(copy, k) => OpenAt(c, copy, k) && HasRun(runs, copy, k) && copy.items[k].state == Judging
  }

  /** Runs are never removed, and what a provider answered is never changed. */
  predicate Grows(runs: map<string, Run>, runs': map<string, Run>) {
    forall id :: id in runs ==>
      id in runs' && (runs[id].provider != ProviderPending ==> runs'[id].provider == runs[id].provider)
  }

  predicate Sound(c: Config, s: State) {
    Shape(c, s.campaign) && PcSound(c, s.pc, s.runs)
  }

  lemma FirstOpenIs(items: seq<Item>, k: nat)
    requires k <= |items|
    requires forall i :: 0 <= i < k ==> items[i].state == Finalized
    requires k < |items| ==> items[k].state != Finalized
    ensures FirstOpen(items) == k
  {
  }

  /** What may be stored for the open item. */
  predicate Replaces(c: Config, campaign: Campaign, k: nat, item: Item, state: CampaignState)
    requires k < |c.scenarios|
  {
    && ItemShape(c, k, item) && item.state != Pending
    && (item.state == Finalized ==> state == (if k + 1 == |campaign.items| then CampaignFinalized else Running))
    && (item.state == Failed <==> state == CampaignFailed)
    && (item.state == Uncertain <==> state == CampaignUncertain)
    && (item.state != Finalized ==> state != CampaignPending && state != CampaignFinalized)
  }

  /** Replacing the open item keeps the shape. */
  lemma UpdateKeepsShape(c: Config, campaign: Campaign, k: nat, item: Item, state: CampaignState)
    requires Shape(c, campaign) && k == FirstOpen(campaign.items) < |campaign.items|
    requires Replaces(c, campaign, k, item, state)
    ensures Shape(c, UpdateItem(campaign, k, item, state))
    ensures FirstOpen(UpdateItem(campaign, k, item, state).items) == if item.state == Finalized then k + 1 else k
  {
    var items := campaign.items[k := item];
    FirstOpenIs(items, if item.state == Finalized then k + 1 else k);
  }

  lemma NextAttemptFits(c: Config, item: Item, k: nat)
    requires k < |c.scenarios| && ItemShape(c, k, item) && item.attempt < c.maxAttempts
    ensures ItemShape(c, k, NextAttempt(c, item, k))
  {
  }

  lemma AttemptAllowed(c: Config, campaign: Campaign, k: nat)
    requires ValidConfig(c) && OpenAt(c, campaign, k) && campaign.items[k].current == None
    ensures k < |c.scenarios| && ItemShape(c, k, campaign.items[k]) && campaign.items[k].attempt < c.maxAttempts
  {
    assert ItemShape(c, k, campaign.items[k]);
  }

  lemma OpenedFits(c: Config, copy: Campaign, k: nat)
    requires ValidConfig(c) && OpenAt(c, copy, k) && copy.items[k].current == None
    ensures k < |c.scenarios| && Replaces(c, copy, k, NextAttempt(c, copy.items[k], k), Running)
    ensures OpenAt(c, UpdateItem(copy, k, NextAttempt(c, copy.items[k], k), Running), k)
  {
    AttemptAllowed(c, copy, k);
    NextAttemptFits(c, copy.items[k], k);
    UpdateKeepsShape(c, copy, k, NextAttempt(c, copy.items[k], k), Running);
  }

  lemma JudgingFits(c: Config, copy: Campaign, k: nat)
    requires OpenAt(c, copy, k) && copy.items[k].current.Some?
    ensures Replaces(c, copy, k, copy.items[k].(state := Judging), Running)
    ensures OpenAt(c, UpdateItem(copy, k, copy.items[k].(state := Judging), Running), k)
  {
    assert ItemShape(c, k, copy.items[k]);
    UpdateKeepsShape(c, copy, k, copy.items[k].(state := Judging), Running);
  }

  lemma FailedFits(c: Config, copy: Campaign, k: nat)
    requires OpenAt(c, copy, k)
    ensures Replaces(c, copy, k, copy.items[k].(state := Failed), CampaignFailed) && Shape(c, Abort(copy, k))
  {
    assert ItemShape(c, k, copy.items[k]);
    UpdateKeepsShape(c, copy, k, copy.items[k].(state := Failed), CampaignFailed);
  }

  lemma ProviderFailureFits(c: Config, copy: Campaign, k: nat)
    requires OpenAt(c, copy, k) && copy.items[k].current.Some?
    ensures Shape(c, ProviderFailure(c, copy, k))
    ensures copy.items[k].attempt < c.maxAttempts ==>
      Replaces(c, copy, k, copy.items[k].(state := Retryable, current := None), Running)
  {
    assert ItemShape(c, k, copy.items[k]);
    if copy.items[k].attempt < c.maxAttempts {
      UpdateKeepsShape(c, copy, k, copy.items[k].(state := Retryable, current := None), Running);
    } else {
      FailedFits(c, copy, k);
    }
  }

  lemma StayFits(c: Config, copy: Campaign, k: nat)
    requires OpenAt(c, copy, k) && copy.items[k].state == Judging
    ensures Replaces(c, copy, k, copy.items[k], Running) && Shape(c, UpdateItem(copy, k, copy.items[k], Running))
  {
    assert ItemShape(c, k, copy.items[k]);
    UpdateKeepsShape(c, copy, k, copy.items[k], Running);
  }

  lemma UncertainFits(c: Config, copy: Campaign, k: nat)
    requires OpenAt(c, copy, k) && copy.items[k].state == Judging
    ensures Replaces(c, copy, k, copy.items[k].(state := Uncertain), CampaignUncertain)
    ensures Shape(c, Polled(copy, k, Recovery))
  {
    assert ItemShape(c, k, copy.items[k]);
    UpdateKeepsShape(c, copy, k, copy.items[k].(state := Uncertain), CampaignUncertain);
  }

  lemma PolledFinal(c: Config, copy: Campaign, k: nat, scorecard: string)
    requires OpenAt(c, copy, k) && copy.items[k].state == Judging
    ensures var done, state := copy.items[k].(state := Finalized, scorecard := Some(scorecard)),
                               if k + 1 == |copy.items| then CampaignFinalized else Running;
            && Polled(copy, k, JudgeFinalized(scorecard)) == UpdateItem(copy, k, done, state)
            && Replaces(c, copy, k, done, state) && Shape(c, UpdateItem(copy, k, done, state))
  {
    var done := copy.items[k].(state := Finalized, scorecard := Some(scorecard));
    assert ItemShape(c, k, copy.items[k]);
    FirstOpenIs(copy.items[k := done], k + 1);
    UpdateKeepsShape(c, copy, k, done, if k + 1 == |copy.items| then CampaignFinalized else Running);
  }

  lemma PolledFits(c: Config, copy: Campaign, k: nat, judge: Judge)
    requires OpenAt(c, copy, k) && copy.items[k].state == Judging
    ensures Shape(c, Polled(copy, k, judge))
  {
    match judge
    case Recovery => UncertainFits(c, copy, k);
    case JudgeFailed => FailedFits(c, copy, k);
    case JudgeFinalized(scorecard) => PolledFinal(c, copy, k, scorecard);
    case _ => StayFits(c, copy, k);
  }

  lemma AfterProviderSound(c: Config, s: State, copy: Campaign, k: nat)
    requires OpenAt(c, copy, k) && HasRun(s.runs, copy, k)
    ensures Sound(c, AfterProvider(c, s, copy, k, RunAt(s.runs, copy, k)))
  {
    if RunAt(s.runs, copy, k).provider == ProviderSuccess {
      JudgingFits(c, copy, k);
    } else {
      ProviderFailureFits(c, copy, k);
    }
  }

  lemma WithRunSound(c: Config, s: State, copy: Campaign, k: nat)
    requires OpenAt(c, copy, k) && copy.items[k].current.Some? && Shape(c, s.campaign)
    ensures Sound(c, WithRun(c, s, copy, k))
  {
    if HasRun(s.runs, copy, k) { AfterProviderSound(c, s, copy, k); }
  }

  lemma BeginSound(c: Config, s: State)
    requires ValidConfig(c) && Sound(c, s)
    ensures Sound(c, Begin(c, s))
  {
    var k := FirstOpen(s.campaign.items);
    if s.pc == Idle && !Terminal(s.campaign.state) && s.campaign.items[k].current.Some? {
      WithRunSound(c, s, s.campaign, k);
    }
  }

  lemma ContinueSound(c: Config, s: State)
    requires ValidConfig(c) && Sound(c, s)
    ensures Sound(c, Continue(c, s))
  {
    if s.pc.Created? {
      CreatedSound(c, s);
    } else if s.pc.Opened? {
      WithRunSound(c, s, s.pc.copy, s.pc.index);
    } else if s.pc.Recorded? {
      AfterProviderSound(c, s, s.pc.copy, s.pc.index);
    }
  }

  lemma CreatedSound(c: Config, s: State)
    requires ValidConfig(c) && Sound(c, s) && s.pc.Created?
    ensures Sound(c, Continue(c, s))
  {
    OpenedFits(c, s.pc.copy, s.pc.index);
    var item := NextAttempt(c, s.pc.copy.items[s.pc.index], s.pc.index);
    assert item.current == Some(RunId(c, s.pc.index, s.pc.copy.items[s.pc.index].attempt + 1));
  }

  lemma SubmitSound(c: Config, s: State, judge: Judge)
    requires Sound(c, s)
    ensures Sound(c, SubmitEnd(s, judge))
  {
    if s.pc.AwaitingSubmit? { FailedFits(c, s.pc.copy, s.pc.index); }
  }

  lemma PollThrowSound(c: Config, s: State, judge: Judge)
    requires Sound(c, s)
    ensures Sound(c, PollThrow(s, judge))
  {
    if s.pc.AwaitingPoll? { StayFits(c, s.pc.copy, s.pc.index); }
  }

  lemma PollSound(c: Config, s: State, judge: Judge)
    requires Sound(c, s)
    ensures Sound(c, PollEnd(s, judge))
  {
    if s.pc.AwaitingPoll? { PolledFits(c, s.pc.copy, s.pc.index, judge); }
  }

  lemma ProviderSound(c: Config, s: State, success: bool, agrees: bool)
    requires Sound(c, s)
    ensures Sound(c, ProviderAnswer(s, success, agrees))
  {
  }

  lemma JudgedSound(c: Config, s: State, a: Action)
    requires Sound(c, s) && (a.SubmitEnds? || a.PollThrows? || a.PollEnds?)
    ensures Sound(c, Next(c, s, a))
  {
    match a
    case SubmitEnds(judge) => SubmitSound(c, s, judge);
    case PollThrows(judge) => PollThrowSound(c, s, judge);
    case PollEnds(judge) => PollSound(c, s, judge);
  }

  lemma FailSound(c: Config, s: State)
    requires Sound(c, s)
    ensures Sound(c, Next(c, s, InfrastructureFails))
  {
    if !Terminal(s.campaign.state) { FailedFits(c, s.campaign, FirstOpen(s.campaign.items)); }
  }

  lemma SoundStep(c: Config, s: State, a: Action)
    requires ValidConfig(c) && Sound(c, s)
    ensures Sound(c, Next(c, s, a))
  {
    match a
    case AdvanceBegins => BeginSound(c, s);
    case Continues => ContinueSound(c, s);
    case InfrastructureFails => FailSound(c, s);
    case ProviderAnswers(success, agrees) => ProviderSound(c, s, success, agrees);
    case Crash => assert Next(c, s, a).pc == Idle;
    case _ => JudgedSound(c, s, a);
  }

  lemma RunsGrow(c: Config, s: State, a: Action)
    ensures Grows(s.runs, Next(c, s, a).runs)
  {
  }

  lemma PcSoundGrows(c: Config, pc: Pc, runs: map<string, Run>, runs': map<string, Run>)
    requires PcSound(c, pc, runs) && Grows(runs, runs')
    ensures PcSound(c, pc, runs')
  {
  }

  ghost predicate SystemSound(c: Config, s: System) {
    Shape(c, s.campaign) && forall w :: w in s.advances ==> PcSound(c, s.advances[w], s.runs)
  }

  lemma SystemStep(c: Config, s: System, e: Event)
    requires ValidConfig(c) && SystemSound(c, s)
    ensures SystemSound(c, Step(c, s, e))
  {
    var v, t := View(s, e.process), Step(c, s, e);
    SoundStep(c, v, e.action);
    RunsGrow(c, v, e.action);
    forall w | w in t.advances ensures PcSound(c, t.advances[w], t.runs) {
      if w != e.process { PcSoundGrows(c, s.advances[w], s.runs, t.runs); }
    }
  }

  lemma StartFits(c: Config)
    requires ValidConfig(c)
    ensures Shape(c, Start(c).campaign)
  {
    FirstOpenIs(FreshItems(c), 0);
  }

  lemma {:induction false} HistorySound(c: Config, events: seq<Event>)
    requires ValidConfig(c)
    ensures SystemSound(c, Play(c, Start(c), events))
  {
    if events == [] {
      StartFits(c);
    } else {
      var n := |events| - 1;
      HistorySound(c, events[..n]);
      SystemStep(c, Play(c, Start(c), events[..n]), events[n]);
    }
  }

  /** In every history: FINALIZED items, then at most one under way, then untouched ones, and as many run
      identifiers as attempts. */
  lemma AlwaysShaped(c: Config, events: seq<Event>, i: nat)
    requires ValidConfig(c) && i < |c.scenarios|
    ensures var items := Play(c, Start(c), events).campaign.items;
            && |items| == |c.scenarios| && |items[i].runIds| == items[i].attempt <= c.maxAttempts
            && (items[i].state != Finalized ==> forall j :: i < j < |items| ==> items[j] == Fresh(c.scenarios[j].id))
  {
    HistorySound(c, events);
    var items := Play(c, Start(c), events).campaign.items;
    assert forall j :: 0 <= j < |items| ==> ItemShape(c, j, items[j]);
  }

  /** In every history a campaign is FINALIZED exactly when all its items are. */
  lemma FinalizedExactly(c: Config, events: seq<Event>)
    requires ValidConfig(c)
    ensures var s := Play(c, Start(c), events).campaign;
            s.state == CampaignFinalized <==> forall i :: 0 <= i < |s.items| ==> s.items[i].state == Finalized
  {
    HistorySound(c, events);
  }

  lemma RunIdAt(c: Config, campaign: Campaign, i: nat, a: nat)
    requires Shape(c, campaign) && i < |campaign.items| && a < |campaign.items[i].runIds|
    ensures i < |c.scenarios| && a < c.maxAttempts && campaign.items[i].runIds[a] == RunId(c, i, a + 1)
  {
    assert ItemShape(c, i, campaign.items[i]);
  }

  lemma ShapeDistinct(c: Config, campaign: Campaign, i: nat, a: nat, j: nat, b: nat)
    requires ValidConfig(c) && NoCollision(c) && Shape(c, campaign) && i < |campaign.items| && j < |campaign.items|
    requires a < |campaign.items[i].runIds| && b < |campaign.items[j].runIds|
    ensures campaign.items[i].runIds[a] == campaign.items[j].runIds[b] ==> i == j && a == b
  {
    var x, y := campaign.items[i].runIds[a], campaign.items[j].runIds[b];
    RunIdAt(c, campaign, i, a);
    RunIdAt(c, campaign, j, b);
    IdsDistinct(c, i, a, j, b, x, y);
  }

  lemma IdsDistinct(c: Config, i: nat, a: nat, j: nat, b: nat, x: string, y: string)
    requires ValidConfig(c) && NoCollision(c) && i < |c.scenarios| && j < |c.scenarios|
    requires a < c.maxAttempts && b < c.maxAttempts && x == RunId(c, i, a + 1) && y == RunId(c, j, b + 1)
    ensures x == y ==> i == j && a == b
  {
    RunIdInjective(c, i, a + 1, j, b + 1);
  }

  /** In every history no two run identifiers of a campaign are equal. */
  lemma RunIdsDistinct(c: Config, events: seq<Event>, campaign: Campaign, i: nat, a: nat, j: nat, b: nat)
    requires ValidConfig(c) && NoCollision(c) && campaign == Play(c, Start(c), events).campaign
    requires i < |campaign.items| && a < |campaign.items[i].runIds|
    requires j < |campaign.items| && b < |campaign.items[j].runIds|
    ensures campaign.items[i].runIds[a] == campaign.items[j].runIds[b] ==> i == j && a == b
  {
    HistorySound(c, events);
    ShapeDistinct(c, campaign, i, a, j, b);
  }

  // ---------- when an ended campaign changes ----------

  /** The actions by which an advance in flight stores a copy that has not ended. */
  predicate StoresOpen(c: Config, s: State, a: Action)
    requires PcSound(c, s.pc, s.runs)
  {
    match s.pc
    case Created(_, _) => a == Continues
    case Opened(copy, k) => a == Continues && StoresAnswer(c, s.runs, copy, k)
    case Recorded(copy, k) => a == Continues && StoresAnswer(c, s.runs, copy, k)
    case AwaitingPoll(copy, k) =>
      || (a.PollThrows? && !a.judge.NotSubmitted?)
      || (a.PollEnds? && (a.judge.Submitted? || (a.judge.JudgeFinalized? && k + 1 < |copy.items|)))
    case _ => false
  }

  /** A provider's success, or a failure that leaves another attempt. */
  predicate StoresAnswer(c: Config, runs: map<string, Run>, copy: Campaign, k: nat)
    requires HasRun(runs, copy, k)
  {
    var provider := RunAt(runs, copy, k).provider;
    provider == ProviderSuccess || (provider == ProviderFailed && copy.items[k].attempt < c.maxAttempts)
  }

  lemma PollLeaves(c: Config, s: State, a: Action)
    requires PcSound(c, s.pc, s.runs) && Terminal(s.campaign.state) && s.pc.AwaitingPoll?
    ensures !Terminal(Next(c, s, a).campaign.state) <==> StoresOpen(c, s, a)
  {
    if a.PollEnds? && a.judge.JudgeFinalized? { PolledFinal(c, s.pc.copy, s.pc.index, a.judge.scorecard); }
  }

  lemma OtherwiseLeaves(c: Config, s: State, a: Action)
    requires ValidConfig(c) && PcSound(c, s.pc, s.runs) && Terminal(s.campaign.state) && !s.pc.AwaitingPoll?
    ensures !Terminal(Next(c, s, a).campaign.state) <==> StoresOpen(c, s, a)
  {
  }

  /** FINALIZED, FAILED and RECOVERY_REQUIRED are left exactly when an advance in flight stores such a copy. */
  lemma LeftExactlyByAdvance(c: Config, s: System, e: Event)
    requires ValidConfig(c) && SystemSound(c, s) && Terminal(s.campaign.state)
    ensures !Terminal(Step(c, s, e).campaign.state) <==> StoresOpen(c, View(s, e.process), e.action)
  {
    var v := View(s, e.process);
    if v.pc.AwaitingPoll? { PollLeaves(c, v, e.action); } else { OtherwiseLeaves(c, v, e.action); }
  }

  /** An advance in flight that can store something else than the ended campaign. All can, but one that
      waits on a run that failed for good and would only store the same failure again. */
  predicate CanChange(c: Config, s: State) {
    match s.pc
    case Idle => false
    case Opened(copy, k) => StoresOther(c, s, copy, k)
    case AwaitingProvider(copy, k) => StoresOther(c, s, copy, k)
    case Recorded(copy, k) => StoresOther(c, s, copy, k)
    case _ => true
  }

  predicate StoresOther(c: Config, s: State, copy: Campaign, k: nat) {
    HasRun(s.runs, copy, k) && RunAt(s.runs, copy, k).provider == ProviderFailed ==>
      ProviderFailure(c, copy, k) != s.campaign
  }

  ghost predicate Settled(c: Config, s: System) {
    && SystemSound(c, s) && Terminal(s.campaign.state)
    && forall w :: w in s.advances ==> !CanChange(c, View(s, w))
  }

  lemma SettledNext(c: Config, s: State, a: Action)
    requires Terminal(s.campaign.state) && !CanChange(c, s)
    ensures Next(c, s, a).campaign == s.campaign && Next(c, s, a).runs == s.runs && !CanChange(c, Next(c, s, a))
  {
    match s.pc
    case Idle =>
    case Opened(copy, k) => assert Next(c, s, a) == s || a != AdvanceBegins;
    case AwaitingProvider(copy, k) => assert Next(c, s, a) == s || a != AdvanceBegins;
    case Recorded(copy, k) => assert Next(c, s, a) == s || a != AdvanceBegins;
  }

  lemma SettledStep(c: Config, s: System, e: Event)
    requires ValidConfig(c) && Settled(c, s)
    ensures Settled(c, Step(c, s, e)) && Step(c, s, e).campaign == s.campaign
  {
    SystemStep(c, s, e);
    SettledNext(c, View(s, e.process), e.action);
    var t := Step(c, s, e);
    forall w | w in t.advances ensures !CanChange(c, View(t, w)) {
      if w != e.process { SameView(c, s, t, w); }
    }
  }

  lemma SameView(c: Config, s: System, t: System, w: nat)
    requires PcOf(s, w) == PcOf(t, w) && s.campaign == t.campaign && s.runs == t.runs
    ensures CanChange(c, View(t, w)) == CanChange(c, View(s, w))
  {
  }

  lemma {:induction false} SettledStays(c: Config, s: System, events: seq<Event>)
    requires ValidConfig(c) && Settled(c, s)
    ensures Settled(c, Play(c, s, events)) && Play(c, s, events).campaign == s.campaign
  {
    if events != [] {
      var n := |events| - 1;
      SettledStays(c, s, events[..n]);
      SettledStep(c, Play(c, s, events[..n]), events[n]);
    }
  }

  /** What such an advance does to change the campaign. */
  function Change(c: Config, s: System, w: nat): seq<Event> {
    var go := Event(w, Continues);
    match PcOf(s, w)
    case Opened(copy, k) =>
      if HasRun(s.runs, copy, k) && RunAt(s.runs, copy, k).provider == ProviderPending
      then [go, Event(w, ProviderAnswers(true, true)), go] else [go]
    case AwaitingProvider(copy, k) => [Event(w, ProviderAnswers(true, true)), go]
    case AwaitingSubmit(_, _) => [Event(w, SubmitEnds(Submitted)), Event(w, PollThrows(Submitted))]
    case AwaitingPoll(_, _) => [Event(w, PollThrows(Submitted))]
    case _ => [go]
  }

  lemma PlayOne(c: Config, s: System, a: Event)
    ensures Play(c, s, [a]) == Step(c, s, a)
  {
    assert [a][..0] == [];
  }

  lemma PlayTwo(c: Config, s: System, a: Event, b: Event)
    ensures Play(c, s, [a, b]) == Step(c, Step(c, s, a), b)
  {
    assert [a, b][..1] == [a];
    PlayOne(c, s, a);
  }

  lemma PlayThree(c: Config, s: System, a: Event, b: Event, d: Event)
    ensures Play(c, s, [a, b, d]) == Step(c, Step(c, Step(c, s, a), b), d)
  {
    assert [a, b, d][..2] == [a, b];
    PlayTwo(c, s, a, b);
  }

  lemma StepsAre(c: Config, s: System, w: nat, a: Action)
    ensures Step(c, s, Event(w, a)).campaign == Next(c, View(s, w), a).campaign
    ensures View(Step(c, s, Event(w, a)), w) == Next(c, View(s, w), a)
  {
  }

  lemma AnswerChanges(c: Config, v: State)
    requires PcSound(c, v.pc, v.runs) && Terminal(v.campaign.state) && CanChange(c, v)
    requires v.pc.AwaitingProvider?
      || (v.pc.Opened? && RunAt(v.runs, v.pc.copy, v.pc.index).provider == ProviderPending)
    ensures var u := if v.pc.Opened? then Next(c, v, Continues) else v;
            Next(c, Next(c, u, ProviderAnswers(true, true)), Continues).campaign != v.campaign
  {
  }

  lemma ContinueChanges(c: Config, v: State)
    requires PcSound(c, v.pc, v.runs) && Terminal(v.campaign.state) && CanChange(c, v)
    requires v.pc.Created? || v.pc.Recorded?
      || (v.pc.Opened? && RunAt(v.runs, v.pc.copy, v.pc.index).provider != ProviderPending)
    ensures Next(c, v, Continues).campaign != v.campaign
  {
    if v.pc.Created? { assert v.pc.index < |c.scenarios|; }
  }

  lemma PollChanges(c: Config, v: State)
    requires PcSound(c, v.pc, v.runs) && Terminal(v.campaign.state) && (v.pc.AwaitingSubmit? || v.pc.AwaitingPoll?)
    ensures var u := if v.pc.AwaitingSubmit? then Next(c, v, SubmitEnds(Submitted)) else v;
            Next(c, u, PollThrows(Submitted)).campaign != v.campaign
  {
  }

  lemma ChangeChanges(c: Config, s: System, w: nat)
    requires ValidConfig(c) && SystemSound(c, s) && Terminal(s.campaign.state) && CanChange(c, View(s, w))
    ensures Play(c, s, Change(c, s, w)).campaign != s.campaign
  {
    var v, go, ok := View(s, w), Event(w, Continues), Event(w, ProviderAnswers(true, true));
    assert PcSound(c, v.pc, v.runs);
    if v.pc.AwaitingSubmit? || v.pc.AwaitingPoll? {
      PollChanges(c, v);
      PlayOne(c, s, Event(w, PollThrows(Submitted)));
      PlayTwo(c, s, Event(w, SubmitEnds(Submitted)), Event(w, PollThrows(Submitted)));
      StepsAre(c, s, w, SubmitEnds(Submitted));
    } else if v.pc.AwaitingProvider?
      || (v.pc.Opened? && RunAt(v.runs, v.pc.copy, v.pc.index).provider == ProviderPending) {
      AnswerChanges(c, v);
      PlayTwo(c, s, ok, go);
      PlayThree(c, s, go, ok, go);
      StepsAre(c, s, w, Continues);
      StepsAre(c, s, w, ok.action);
      StepsAre(c, Step(c, s, go), w, ok.action);
    } else {
      ContinueChanges(c, v);
      PlayOne(c, s, go);
    }
  }

  /** An ended campaign can still change exactly when some advance in flight can store something else. */
  lemma EndedChangesExactly(c: Config, s: System)
    requires ValidConfig(c) && SystemSound(c, s) && Terminal(s.campaign.state)
    ensures (exists events :: Play(c, s, events).campaign != s.campaign) <==> exists w ::
      w in s.advances && CanChange(c, View(s, w))
  {
    if w :| w in s.advances && CanChange(c, View(s, w)) {
      ChangeChanges(c, s, w);
    } else {
      forall events ensures Play(c, s, events).campaign == s.campaign { SettledStays(c, s, events); }
    }
  }

  // ---------- how often the provider is called ----------

  /** The run for which a step calls the provider. */
  function CallFor(c: Config, s: State, a: Action): Option<string> {
    if a == AdvanceBegins && s.pc == Idle && !Terminal(s.campaign.state) then
      PendingRun(s.runs, s.campaign, FirstOpen(s.campaign.items))
    else if a == Continues && s.pc.Opened? then PendingRun(s.runs, s.pc.copy, s.pc.index)
    else None
  }

  /** The run of the copy's open item, while it has no answer. */
  function PendingRun(runs: map<string, Run>, copy: Campaign, k: nat): Option<string> {
    if HasRun(runs, copy, k) && RunAt(runs, copy, k).provider == ProviderPending then copy.items[k].current else None
  }

  lemma CallsAre(c: Config, s: State, a: Action)
    ensures var t, id := Next(c, s, a), CallFor(c, s, a);
            if id.None? then t.calls == s.calls && t.called == s.called && t.repeats == s.repeats
            else
              && t.calls == s.calls + 1 && t.called == s.called + {id.value} && Waited(t.pc) == {id.value}
              && t.repeats == s.repeats + if id.value in s.called then 1 else 0
  {
  }

  lemma InterruptedAre(c: Config, s: State, a: Action)
    ensures Next(c, s, a).interrupted == s.interrupted + if a == Crash then Waited(s.pc) else {}
  {
  }

  /** An advance stops waiting by a crash, or when its run has an answer. */
  lemma WaitEnds(c: Config, s: State, a: Action, id: string)
    requires PcSound(c, s.pc, s.runs) && id in Waited(s.pc) && id !in Waited(Next(c, s, a).pc) && a != Crash
    ensures id in Next(c, s, a).runs && Next(c, s, a).runs[id].provider != ProviderPending
  {
  }

  lemma WaitBegins(c: Config, s: State, a: Action, id: string)
    requires id in Waited(Next(c, s, a).pc) && id !in Waited(s.pc)
    ensures CallFor(c, s, a) == Some(id)
  {
  }

  /** The runs a campaign can have. */
  function RunIds(c: Config, scenarios: nat): set<string>
    requires scenarios <= |c.scenarios|
  {
    if scenarios == 0 then {} else RunIds(c, scenarios - 1) + AttemptIds(c, scenarios - 1, c.maxAttempts)
  }

  function AttemptIds(c: Config, i: nat, attempts: nat): set<string>
    requires i < |c.scenarios|
  {
    if attempts == 0 then {} else AttemptIds(c, i, attempts - 1) + {RunId(c, i, attempts)}
  }

  lemma {:induction false} AttemptIdsBounded(c: Config, i: nat, attempts: nat)
    requires i < |c.scenarios|
    ensures |AttemptIds(c, i, attempts)| <= attempts
  {
    if attempts > 0 { AttemptIdsBounded(c, i, attempts - 1); }
  }

  lemma {:induction false} RunIdsBounded(c: Config, scenarios: nat)
    requires scenarios <= |c.scenarios|
    ensures |RunIds(c, scenarios)| <= scenarios * c.maxAttempts
  {
    if scenarios > 0 {
      RunIdsBounded(c, scenarios - 1);
      AttemptIdsBounded(c, scenarios - 1, c.maxAttempts);
      assert scenarios * c.maxAttempts == (scenarios - 1) * c.maxAttempts + c.maxAttempts;
    }
  }

  lemma {:induction false} AttemptIdIn(c: Config, i: nat, a: nat, attempts: nat)
    requires i < |c.scenarios| && 1 <= a <= attempts
    ensures RunId(c, i, a) in AttemptIds(c, i, attempts)
  {
    if a < attempts { AttemptIdIn(c, i, a, attempts - 1); }
  }

  lemma {:induction false} RunIdIn(c: Config, i: nat, a: nat, scenarios: nat)
    requires i < scenarios <= |c.scenarios| && 1 <= a <= c.maxAttempts
    ensures RunId(c, i, a) in RunIds(c, scenarios)
  {
    if i == scenarios - 1 { AttemptIdIn(c, i, a, c.maxAttempts); } else { RunIdIn(c, i, a, scenarios - 1); }
  }

  /** A step calls for a run of the campaign, and one that is stored. */
  lemma CallForRun(c: Config, s: State, a: Action)
    requires Sound(c, s) && CallFor(c, s, a).Some?
    ensures CallFor(c, s, a).value in s.runs && CallFor(c, s, a).value in RunIds(c, |c.scenarios|)
    ensures s.runs[CallFor(c, s, a).value].provider == ProviderPending
  {
    if s.pc.Opened? {
      CurrentIdIn(c, s.pc.copy, s.pc.index);
    } else {
      CurrentIdIn(c, s.campaign, FirstOpen(s.campaign.items));
    }
  }

  lemma CurrentIdIn(c: Config, copy: Campaign, k: nat)
    requires Shape(c, copy) && k < |copy.items| && copy.items[k].current.Some?
    ensures copy.items[k].current.value in RunIds(c, |c.scenarios|)
  {
    assert ItemShape(c, k, copy.items[k]);
    RunIdIn(c, k, copy.items[k].attempt, |c.scenarios|);
  }

  /** Some advance waits on the run. */
  ghost predicate WaitedOn(s: System, id: string) {
    exists w :: w in s.advances && id in Waited(s.advances[w])
  }

  /** A run called for that has no answer has been interrupted, or is still waited on; and conversely. */
  ghost predicate CallSound(c: Config, s: System) {
    && s.calls == |s.called| + s.repeats
    && s.called <= RunIds(c, |c.scenarios|) && s.called <= s.runs.Keys && s.interrupted <= s.called
    && (forall w :: w in s.advances ==> Waited(s.advances[w]) <= s.called)
    && (forall id :: id in s.called && s.runs[id].provider == ProviderPending ==>
          id in s.interrupted || WaitedOn(s, id))
  }

  lemma CallsCountedStep(c: Config, s: State, a: Action)
    requires Sound(c, s) && s.calls == |s.called| + s.repeats
    requires s.called <= RunIds(c, |c.scenarios|) && s.called <= s.runs.Keys
    ensures var t := Next(c, s, a);
            && t.calls == |t.called| + t.repeats
            && t.called <= RunIds(c, |c.scenarios|) && t.called <= t.runs.Keys
  {
    CallsAre(c, s, a);
    RunsGrow(c, s, a);
    if CallFor(c, s, a).Some? {
      CallForRun(c, s, a);
      S.AddOne(s.called, CallFor(c, s, a).value);
    }
  }

  lemma WaitedStep(c: Config, s: State, a: Action)
    requires Waited(s.pc) <= s.called && s.interrupted <= s.called
    ensures Waited(Next(c, s, a).pc) <= Next(c, s, a).called && Next(c, s, a).interrupted <= Next(c, s, a).called
  {
    CallsAre(c, s, a);
    InterruptedAre(c, s, a);
    forall id | id in Waited(Next(c, s, a).pc) && id !in Waited(s.pc) ensures id in Next(c, s, a).called {
      WaitBegins(c, s, a, id);
    }
  }

  lemma PendingStep(c: Config, s: System, e: Event, id: string)
    requires SystemSound(c, s) && CallSound(c, s) && id in Step(c, s, e).called && id in Step(c, s, e).runs
    requires Step(c, s, e).runs[id].provider == ProviderPending
    ensures id in Step(c, s, e).interrupted || WaitedOn(Step(c, s, e), id)
  {
    var v, t := View(s, e.process), Step(c, s, e);
    CallsAre(c, v, e.action);
    InterruptedAre(c, v, e.action);
    RunsGrow(c, v, e.action);
    if CallFor(c, v, e.action) == Some(id) {
      assert id in Waited(t.advances[e.process]);
    } else if id !in t.interrupted {
      assert id in s.called && s.runs[id].provider == ProviderPending;
      var w :| w in s.advances && id in Waited(s.advances[w]);
      if w == e.process {
        if id !in Waited(t.advances[w]) { WaitEnds(c, v, e.action, id); }
      } else {
        assert t.advances[w] == s.advances[w];
      }
    }
  }

  lemma CallSoundStep(c: Config, s: System, e: Event)
    requires ValidConfig(c) && SystemSound(c, s) && CallSound(c, s)
    ensures CallSound(c, Step(c, s, e))
  {
    var v, t := View(s, e.process), Step(c, s, e);
    CallsCountedStep(c, v, e.action);
    WaitedStep(c, v, e.action);
    CallsAre(c, v, e.action);
    forall w | w in t.advances ensures Waited(t.advances[w]) <= t.called {
      if w != e.process { assert t.advances[w] == s.advances[w]; }
    }
    forall id | id in t.called && t.runs[id].provider == ProviderPending
      ensures id in t.interrupted || WaitedOn(t, id)
    {
      PendingStep(c, s, e, id);
    }
  }

  lemma {:induction false} HistoryCalls(c: Config, events: seq<Event>)
    requires ValidConfig(c)
    ensures SystemSound(c, Play(c, Start(c), events)) && CallSound(c, Play(c, Start(c), events))
  {
    HistorySound(c, events);
    if events != [] {
      var n := |events| - 1;
      HistoryCalls(c, events[..n]);
      CallSoundStep(c, Play(c, Start(c), events[..n]), events[n]);
    }
  }

  /** In every history the provider's calls are the runs it was called for, at most scenarios x
      maxProviderAttempts, and the repeated calls. */
  lemma CallsCounted(c: Config, events: seq<Event>)
    requires ValidConfig(c)
    ensures var s := Play(c, Start(c), events);
            s.calls == |s.called| + s.repeats && |s.called| <= |c.scenarios| * c.maxAttempts
  {
    HistoryCalls(c, events);
    RunIdsBounded(c, |c.scenarios|);
    S.SubsetSize(Play(c, Start(c), events).called, RunIds(c, |c.scenarios|));
  }

  /** In any state of any history a step repeats a call exactly when it calls for a run whose earlier call was
      interrupted by a crash, or is still waited for. */
  lemma RepeatedExactly(c: Config, s: System, e: Event)
    requires SystemSound(c, s) && CallSound(c, s)
    ensures Step(c, s, e).repeats <= s.repeats + 1
    ensures Step(c, s, e).repeats == s.repeats + 1 <==>
              var id := CallFor(c, View(s, e.process), e.action);
              id.Some? && (id.value in s.interrupted || WaitedOn(s, id.value))
  {
    var v := View(s, e.process);
    CallsAre(c, v, e.action);
    if CallFor(c, v, e.action).Some? { CallForRun(c, v, e.action); }
  }

  // ---------- one advance at a time ----------

  /** No advance begins, and failInfrastructure is not called, while another process is advancing. The lease
      on a campaign sees to the first while an advance ends within it. */
  predicate Separate(s: System, e: Event) {
    && (e.action == AdvanceBegins ==> Quiet(s, e.process))
    && (e.action == InfrastructureFails ==> Quiet(s, e.process) && PcOf(s, e.process) == Idle)
  }

  /** Nobody but this process is advancing. */
  predicate Quiet(s: System, w: nat) {
    forall v :: v in s.advances && v != w ==> s.advances[v] == Idle
  }

  ghost predicate NoOverlap(c: Config, events: seq<Event>) {
    forall i :: 0 <= i < |events| ==> Separate(Play(c, Start(c), events[..i]), events[i])
  }

  function OpenRun(s: State): Option<Run> {
    var k := FirstOpen(s.campaign.items);
    if HasRun(s.runs, s.campaign, k) then Some(RunAt(s.runs, s.campaign, k)) else None
  }

  /** Every attempt has its run, a finalized item the one its scorecard comes from, and no run yet to
      be attempted has been touched. */
  ghost predicate RunsFit(c: Config, items: seq<Item>, runs: map<string, Run>)
    requires |items| == |c.scenarios|
  {
    && (forall i, a :: 0 <= i < |items| && 1 <= a <= items[i].attempt ==> RunId(c, i, a) in runs)
    && (forall i, a :: 0 <= i < |items| && items[i].attempt < a <= c.maxAttempts && RunId(c, i, a) in runs ==>
          runs[RunId(c, i, a)] == Run(ProviderPending, NotSubmitted))
    && (forall i :: 0 <= i < |items| && items[i].state == Finalized ==>
          && items[i].scorecard.Some? && items[i].attempt > 0 && RunId(c, i, items[i].attempt) in runs
          && runs[RunId(c, i, items[i].attempt)] == Run(ProviderSuccess, JudgeFinalized(items[i].scorecard.value)))
  }

  predicate AtOpen(s: State, copy: Campaign, k: nat) {
    copy == s.campaign && k == FirstOpen(copy.items) < |copy.items| && !Terminal(copy.state)
  }

  predicate PcFits(c: Config, s: State) {
    match s.pc
    case Idle => true
    case Created(copy, k) =>
      && AtOpen(s, copy, k) && copy.items[k].current == None && k < |c.scenarios|
      && RunId(c, k, copy.items[k].attempt + 1) in s.runs
    case Opened(copy, k) => AtOpen(s, copy, k) && OpenRun(s).Some?
    case AwaitingProvider(copy, k) => AtOpen(s, copy, k) && OpenRun(s).Some?
      && OpenRun(s).value.provider == ProviderPending
    case Recorded(copy, k) => AtOpen(s, copy, k) && OpenRun(s).Some? && OpenRun(s).value.provider != ProviderPending
    case AwaitingSubmit(copy, k) => Judged(s, copy, k)
    case AwaitingPoll(copy, k) => Judged(s, copy, k)
  }

  /** The open item's run has an answer and may be judged. */
  predicate Judged(s: State, copy: Campaign, k: nat) {
    AtOpen(s, copy, k) && OpenRun(s).Some? && OpenRun(s).value.provider == ProviderSuccess
      && copy.items[k].state == Judging
  }

  /** A call that a crash has interrupted, or that is about to be made. */
  function Owed(s: State): nat {
    if !s.pc.AwaitingProvider? && OpenRun(s).Some? && OpenRun(s).value.provider == ProviderPending then 1 else 0
  }

  function Attempts(items: seq<Item>): nat {
    if items == [] then 0 else items[0].attempt + Attempts(items[1..])
  }

  ghost predicate Stored(c: Config, s: State) {
    Shape(c, s.campaign) && RunsFit(c, s.campaign.items, s.runs)
  }

  ghost predicate Inv(c: Config, s: State) {
    Stored(c, s) && PcFits(c, s) && s.calls + Owed(s) <= Attempts(s.campaign.items) + s.crashes
  }

  lemma {:induction false} AttemptsUpdate(items: seq<Item>, k: nat, item: Item)
    requires k < |items|
    ensures Attempts(items[k := item]) == Attempts(items) - items[k].attempt + item.attempt
  {
    if k > 0 {
      assert items[k := item][1..] == items[1..][k - 1 := item];
      AttemptsUpdate(items[1..], k - 1, item);
    } else {
      assert items[k := item][1..] == items[1..];
    }
  }

  lemma {:induction false} AttemptsBounded(items: seq<Item>, max: nat)
    requires forall i :: 0 <= i < |items| ==> items[i].attempt <= max
    ensures Attempts(items) <= |items| * max
  {
    if items != [] { AttemptsBounded(items[1..], max); }
  }

  lemma RunUpdateKeeps(c: Config, campaign: Campaign, runs: map<string, Run>, k: nat, run: Run)
    requires ValidConfig(c) && NoCollision(c) && Shape(c, campaign) && RunsFit(c, campaign.items, runs)
    requires k < |campaign.items| && campaign.items[k].state != Finalized && campaign.items[k].attempt > 0
    ensures RunsFit(c, campaign.items, runs[RunId(c, k, campaign.items[k].attempt) := run])
  {
    var items := campaign.items;
    forall i | 0 <= i < |items| ensures items[i].attempt <= c.maxAttempts { assert ItemShape(c, i, items[i]); }
    forall i, a | 0 <= i < |items| && 1 <= a <= c.maxAttempts
      ensures RunId(c, i, a) == RunId(c, k, items[k].attempt) ==> i == k && a == items[k].attempt
    {
      RunIdInjective(c, i, a, k, items[k].attempt);
    }
  }

  /** The run a changed open item rests on. */
  ghost predicate Backed(c: Config, runs: map<string, Run>, k: nat, before: Item, item: Item)
    requires k < |c.scenarios|
  {
    && (item.attempt == before.attempt || (item.attempt == before.attempt + 1 && RunId(c, k, item.attempt) in runs))
    && (item.state == Finalized ==>
          && item.scorecard.Some? && item.attempt > 0 && RunId(c, k, item.attempt) in runs
          && runs[RunId(c, k, item.attempt)] == Run(ProviderSuccess, JudgeFinalized(item.scorecard.value)))
  }

  lemma ItemUpdateKeeps(c: Config, items: seq<Item>, runs: map<string, Run>, k: nat, item: Item)
    requires |items| == |c.scenarios| && RunsFit(c, items, runs) && k < |items| && Backed(c, runs, k, items[k], item)
    ensures RunsFit(c, items[k := item], runs)
  {
  }

  lemma NextUntouched(c: Config, campaign: Campaign, k: nat)
    requires Shape(c, campaign) && k < |campaign.items| && campaign.items[k].state == Pending
    ensures campaign.items[k].current == None
  {
    assert ItemShape(c, k, campaign.items[k]);
  }

  /** Storing a changed open item and going on elsewhere keeps everything. */
  lemma StoreKeeps(c: Config, s: State, k: nat, item: Item, state: CampaignState, t: State)
    requires ValidConfig(c) && Stored(c, s) && k == FirstOpen(s.campaign.items) < |s.campaign.items|
    requires Replaces(c, s.campaign, k, item, state) && Backed(c, s.runs, k, s.campaign.items[k], item)
    requires t.campaign == UpdateItem(s.campaign, k, item, state) && t.runs == s.runs
    ensures Stored(c, t)
    ensures FirstOpen(t.campaign.items) == if item.state == Finalized then k + 1 else k
    ensures Attempts(t.campaign.items) == Attempts(s.campaign.items) - s.campaign.items[k].attempt + item.attempt
    ensures OpenRun(t) ==
      if item.state != Finalized && item.current.Some? && item.current.value in s.runs
      then Some(s.runs[item.current.value]) else None
  {
    UpdateKeepsShape(c, s.campaign, k, item, state);
    ItemUpdateKeeps(c, s.campaign.items, s.runs, k, item);
    AttemptsUpdate(s.campaign.items, k, item);
    if item.state == Finalized && k + 1 < |s.campaign.items| { NextUntouched(c, t.campaign, k + 1); }
  }

  /** An advance whose run has an answer is about to store the item. */
  ghost predicate Ready(c: Config, s: State, copy: Campaign, k: nat) {
    && Stored(c, s) && AtOpen(s, copy, k) && OpenRun(s).Some? && OpenRun(s).value.provider != ProviderPending
    && s.calls <= Attempts(s.campaign.items) + s.crashes
  }

  lemma JudgingKeeps(c: Config, s: State, copy: Campaign, k: nat, run: Run)
    requires ValidConfig(c) && Ready(c, s, copy, k) && OpenRun(s) == Some(run) && run.provider == ProviderSuccess
    ensures Inv(c, AfterProvider(c, s, copy, k, run))
  {
    JudgingFits(c, copy, k);
    StoreKeeps(c, s, k, copy.items[k].(state := Judging), Running, AfterProvider(c, s, copy, k, run));
  }

  lemma RetryKeeps(c: Config, s: State, copy: Campaign, k: nat, run: Run)
    requires ValidConfig(c) && Ready(c, s, copy, k) && OpenRun(s) == Some(run) && run.provider == ProviderFailed
    ensures Inv(c, AfterProvider(c, s, copy, k, run))
  {
    var t, item := AfterProvider(c, s, copy, k, run), copy.items[k];
    ProviderFailureFits(c, copy, k);
    FailedFits(c, copy, k);
    if item.attempt < c.maxAttempts {
      StoreKeeps(c, s, k, item.(state := Retryable, current := None), Running, t);
    } else {
      StoreKeeps(c, s, k, item.(state := Failed), CampaignFailed, t);
    }
  }

  lemma AfterProviderKeeps(c: Config, s: State, copy: Campaign, k: nat, run: Run)
    requires ValidConfig(c) && Ready(c, s, copy, k) && OpenRun(s) == Some(run)
    ensures Inv(c, AfterProvider(c, s, copy, k, run))
  {
    if run.provider == ProviderSuccess { JudgingKeeps(c, s, copy, k, run); } else { RetryKeeps(c, s, copy, k, run); }
  }

  lemma AddRunKeeps(c: Config, items: seq<Item>, runs: map<string, Run>, id: string)
    requires |items| == |c.scenarios| && RunsFit(c, items, runs) && id !in runs
    ensures RunsFit(c, items, runs[id := Run(ProviderPending, NotSubmitted)])
  {
  }

  lemma CreateKeeps(c: Config, s: State, k: nat)
    requires ValidConfig(c) && Inv(c, s) && AtOpen(s, s.campaign, k) && k < |c.scenarios|
      && s.campaign.items[k].current == None
    ensures Inv(c, Create(s, RunId(c, k, s.campaign.items[k].attempt + 1), k))
  {
    var id := RunId(c, k, s.campaign.items[k].attempt + 1);
    if id !in s.runs { AddRunKeeps(c, s.campaign.items, s.runs, id); }
    assert OpenRun(s) == None;
  }

  lemma CurrentRun(c: Config, s: State, k: nat)
    requires Stored(c, s) && k < |s.campaign.items| && s.campaign.items[k].current.Some?
    ensures s.campaign.items[k].current.value in s.runs
  {
    assert ItemShape(c, k, s.campaign.items[k]);
    assert s.campaign.items[k].current.value == RunId(c, k, s.campaign.items[k].attempt);
  }

  lemma ResumeKeeps(c: Config, s: State, k: nat)
    requires ValidConfig(c) && Inv(c, s) && (s.pc == Idle || s.pc.Opened?)
    requires AtOpen(s, s.campaign, k) && s.campaign.items[k].current.Some?
    ensures Inv(c, WithRun(c, s, s.campaign, k))
  {
    CurrentRun(c, s, k);
    var run := s.runs[s.campaign.items[k].current.value];
    assert OpenRun(s) == Some(run);
    if run.provider != ProviderPending { AfterProviderKeeps(c, s, s.campaign, k, run); }
  }

  lemma BeginIs(c: Config, s: State, k: nat)
    requires s.pc == Idle && !Terminal(s.campaign.state)
    requires k == FirstOpen(s.campaign.items) < |s.campaign.items| == |c.scenarios|
    ensures Begin(c, s) ==
      if s.campaign.items[k].current.Some? then WithRun(c, s, s.campaign, k)
      else Create(s, RunId(c, k, s.campaign.items[k].attempt + 1), k)
  {
  }

  lemma BeginKeeps(c: Config, s: State)
    requires ValidConfig(c) && Inv(c, s)
    ensures Inv(c, Begin(c, s))
  {
    if s.pc == Idle && !Terminal(s.campaign.state) {
      var k := FirstOpen(s.campaign.items);
      BeginIs(c, s, k);
      if s.campaign.items[k].current == None { CreateKeeps(c, s, k); } else { ResumeKeeps(c, s, k); }
    }
  }

  lemma CreatedKeeps(c: Config, s: State)
    requires ValidConfig(c) && Inv(c, s) && s.pc.Created?
    ensures Inv(c, Continue(c, s))
  {
    var copy, k := s.pc.copy, s.pc.index;
    OpenedFits(c, copy, k);
    StoreKeeps(c, s, k, NextAttempt(c, copy.items[k], k), Running, Continue(c, s));
    assert Owed(s) == 0;
  }

  lemma ContinueKeeps(c: Config, s: State)
    requires ValidConfig(c) && Inv(c, s)
    ensures Inv(c, Continue(c, s))
  {
    match s.pc
    case Created(_, _) => CreatedKeeps(c, s);
    case Opened(_, k) => ResumeKeeps(c, s, k);
    case Recorded(copy, k) => AfterProviderKeeps(c, s, copy, k, OpenRun(s).value);
    case _ =>
  }

  /** The open item's run is the one of its last attempt. */
  lemma OpenRunIs(c: Config, s: State, copy: Campaign, k: nat)
    requires Shape(c, s.campaign) && AtOpen(s, copy, k) && OpenRun(s).Some?
    ensures ItemShape(c, k, copy.items[k]) && copy.items[k].attempt > 0
    ensures copy.items[k].current == Some(RunId(c, k, copy.items[k].attempt))
      && RunId(c, k, copy.items[k].attempt) in s.runs
    ensures s.runs[RunId(c, k, copy.items[k].attempt)] == OpenRun(s).value
  {
    assert ItemShape(c, k, copy.items[k]);
  }

  lemma ProviderKeeps(c: Config, s: State, success: bool, agrees: bool)
    requires ValidConfig(c) && NoCollision(c) && Inv(c, s)
    ensures Inv(c, ProviderAnswer(s, success, agrees))
  {
    if s.pc.AwaitingProvider? {
      var k, provider := s.pc.index, if success then ProviderSuccess else ProviderFailed;
      OpenRunIs(c, s, s.pc.copy, k);
      RunUpdateKeeps(c, s.campaign, s.runs, k, OpenRun(s).value.(provider := provider));
    }
  }

  /** What the tracker answers changes the open run only. */
  lemma JudgeKeeps(c: Config, s: State, copy: Campaign, k: nat, judge: Judge)
    requires ValidConfig(c) && NoCollision(c) && Ready(c, s, copy, k) && Judged(s, copy, k)
    ensures HasRun(s.runs, copy, k)
    ensures var t := JudgeStep(s, copy, k, judge);
            Ready(c, t, copy, k) && Judged(t, copy, k) && OpenRun(t) == Some(OpenRun(s).value.(judge := judge))
  {
    OpenRunIs(c, s, copy, k);
    RunUpdateKeeps(c, s.campaign, s.runs, k, OpenRun(s).value.(judge := judge));
  }

  lemma AbortKeeps(c: Config, t: State, copy: Campaign, k: nat)
    requires ValidConfig(c) && Ready(c, t, copy, k)
    ensures Inv(c, Put(t, Abort(copy, k), Idle))
  {
    FailedFits(c, copy, k);
    StoreKeeps(c, t, k, copy.items[k].(state := Failed), CampaignFailed, Put(t, Abort(copy, k), Idle));
  }

  lemma StayKeeps(c: Config, t: State, copy: Campaign, k: nat)
    requires ValidConfig(c) && Ready(c, t, copy, k) && Judged(t, copy, k)
    ensures Inv(c, Put(t, UpdateItem(copy, k, copy.items[k], Running), Idle))
  {
    StayFits(c, copy, k);
    StoreKeeps(c, t, k, copy.items[k], Running, Put(t, UpdateItem(copy, k, copy.items[k], Running), Idle));
  }

  lemma UncertainKeeps(c: Config, t: State, copy: Campaign, k: nat)
    requires ValidConfig(c) && Ready(c, t, copy, k) && Judged(t, copy, k)
    ensures Inv(c, Put(t, Polled(copy, k, Recovery), Idle))
  {
    UncertainFits(c, copy, k);
    StoreKeeps(c, t, k, copy.items[k].(state := Uncertain), CampaignUncertain, Put(t, Polled(copy, k, Recovery), Idle));
  }

  lemma FinalizeKeeps(c: Config, t: State, copy: Campaign, k: nat, scorecard: string)
    requires ValidConfig(c) && Ready(c, t, copy, k) && Judged(t, copy, k)
    requires OpenRun(t).value.judge == JudgeFinalized(scorecard)
    ensures Inv(c, Put(t, Polled(copy, k, JudgeFinalized(scorecard)), Idle))
  {
    var done := copy.items[k].(state := Finalized, scorecard := Some(scorecard));
    OpenRunIs(c, t, copy, k);
    PolledFinal(c, copy, k, scorecard);
    StoreKeeps(c, t, k, done, if k + 1 == |copy.items| then CampaignFinalized else Running,
               Put(t, Polled(copy, k, JudgeFinalized(scorecard)), Idle));
  }

  lemma PolledKeeps(c: Config, t: State, copy: Campaign, k: nat, judge: Judge)
    requires ValidConfig(c) && Ready(c, t, copy, k) && Judged(t, copy, k) && OpenRun(t).value.judge == judge
    ensures Inv(c, Put(t, Polled(copy, k, judge), Idle))
  {
    match judge
    case Recovery => UncertainKeeps(c, t, copy, k);
    case JudgeFailed => AbortKeeps(c, t, copy, k);
    case JudgeFinalized(scorecard) => FinalizeKeeps(c, t, copy, k, scorecard);
    case _ => StayKeeps(c, t, copy, k);
  }

  lemma ReadyToJudge(c: Config, s: State)
    requires Inv(c, s) && (s.pc.AwaitingSubmit? || s.pc.AwaitingPoll?)
    ensures Ready(c, s, s.pc.copy, s.pc.index) && Judged(s, s.pc.copy, s.pc.index)
  {
  }

  lemma SubmitKeeps(c: Config, s: State, judge: Judge)
    requires ValidConfig(c) && NoCollision(c) && Inv(c, s)
    ensures Inv(c, SubmitEnd(s, judge))
  {
    if s.pc.AwaitingSubmit? {
      ReadyToJudge(c, s);
      JudgeKeeps(c, s, s.pc.copy, s.pc.index, judge);
      if judge == NotSubmitted { AbortKeeps(c, JudgeStep(s, s.pc.copy, s.pc.index, judge), s.pc.copy, s.pc.index); }
    }
  }

  lemma PollThrowKeeps(c: Config, s: State, judge: Judge)
    requires ValidConfig(c) && NoCollision(c) && Inv(c, s)
    ensures Inv(c, PollThrow(s, judge))
  {
    if s.pc.AwaitingPoll? && judge != NotSubmitted {
      ReadyToJudge(c, s);
      JudgeKeeps(c, s, s.pc.copy, s.pc.index, judge);
      StayKeeps(c, JudgeStep(s, s.pc.copy, s.pc.index, judge), s.pc.copy, s.pc.index);
    }
  }

  lemma PollKeeps(c: Config, s: State, judge: Judge)
    requires ValidConfig(c) && NoCollision(c) && Inv(c, s)
    ensures Inv(c, PollEnd(s, judge))
  {
    if s.pc.AwaitingPoll? && judge != NotSubmitted {
      ReadyToJudge(c, s);
      JudgeKeeps(c, s, s.pc.copy, s.pc.index, judge);
      PolledKeeps(c, JudgeStep(s, s.pc.copy, s.pc.index, judge), s.pc.copy, s.pc.index, judge);
    }
  }

  lemma FailKeeps(c: Config, s: State)
    requires ValidConfig(c) && Inv(c, s) && s.pc == Idle
    ensures Inv(c, Next(c, s, InfrastructureFails))
  {
    if !Terminal(s.campaign.state) {
      var k := FirstOpen(s.campaign.items);
      FailedFits(c, s.campaign, k);
      StoreKeeps(c, s, k, s.campaign.items[k].(state := Failed), CampaignFailed, Next(c, s, InfrastructureFails));
    }
  }

  lemma JudgedKeeps(c: Config, s: State, a: Action)
    requires ValidConfig(c) && NoCollision(c) && Inv(c, s) && (a.SubmitEnds? || a.PollThrows? || a.PollEnds?)
    ensures Inv(c, Next(c, s, a))
  {
    match a
    case SubmitEnds(judge) => SubmitKeeps(c, s, judge);
    case PollThrows(judge) => PollThrowKeeps(c, s, judge);
    case PollEnds(judge) => PollKeeps(c, s, judge);
  }

  lemma CrashKeeps(c: Config, s: State, t: State)
    requires Inv(c, s) && t.campaign == s.campaign && t.runs == s.runs && t.calls == s.calls && t.crashes >= s.crashes
    requires t.pc == s.pc || (t.pc == Idle && t.crashes > s.crashes)
    ensures Inv(c, t)
  {
  }

  lemma StepKeeps(c: Config, s: State, a: Action)
    requires ValidConfig(c) && NoCollision(c) && Inv(c, s) && (a == InfrastructureFails ==> s.pc == Idle)
    ensures Inv(c, Next(c, s, a))
  {
    match a
    case AdvanceBegins => BeginKeeps(c, s);
    case Continues => ContinueKeeps(c, s);
    case ProviderAnswers(success, agrees) => ProviderKeeps(c, s, success, agrees);
    case InfrastructureFails => FailKeeps(c, s);
    case Crash => CrashKeeps(c, s, Next(c, s, Crash));
    case _ => JudgedKeeps(c, s, a);
  }

  /** A process that is not advancing changes nothing but by beginning, failing or crashing. */
  lemma IdleStep(c: Config, s: State, a: Action)
    requires s.pc == Idle && a != AdvanceBegins && a != InfrastructureFails
    ensures Next(c, s, a) == if a == Crash then s.(crashes := s.crashes + 1) else s
  {
  }

  /** The process that is advancing, if any, and the invariant for it. */
  ghost predicate Alone(c: Config, s: System, w: nat) {
    Quiet(s, w) && Inv(c, View(s, w))
  }

  lemma OwnStep(c: Config, s: System, e: Event)
    requires ValidConfig(c) && NoCollision(c) && Alone(c, s, e.process) && Separate(s, e)
    ensures Alone(c, Step(c, s, e), e.process)
  {
    StepKeeps(c, View(s, e.process), e.action);
  }

  lemma OtherStep(c: Config, s: System, e: Event, w: nat)
    requires Alone(c, s, w) && w != e.process && e.action != AdvanceBegins && e.action != InfrastructureFails
    ensures Alone(c, Step(c, s, e), w)
  {
    IdleStep(c, View(s, e.process), e.action);
    var t := Step(c, s, e);
    assert View(t, w) == View(s, w).(crashes := t.crashes);
    CrashKeeps(c, View(s, w), View(t, w));
  }

  lemma AloneStep(c: Config, s: System, e: Event, w: nat) returns (w': nat)
    requires ValidConfig(c) && NoCollision(c) && Alone(c, s, w) && Separate(s, e)
    ensures Alone(c, Step(c, s, e), w')
  {
    if e.process == w || e.action == AdvanceBegins || e.action == InfrastructureFails {
      assert View(s, e.process) == View(s, w);
      OwnStep(c, s, e);
      w' := e.process;
    } else {
      OtherStep(c, s, e, w);
      w' := w;
    }
  }

  lemma {:induction false} HistoryKeeps(c: Config, events: seq<Event>) returns (w: nat)
    requires ValidConfig(c) && NoCollision(c) && NoOverlap(c, events)
    ensures Alone(c, Play(c, Start(c), events), w)
  {
    if events == [] {
      StartFits(c);
      FirstOpenIs(FreshItems(c), 0);
      w := 0;
    } else {
      var n := |events| - 1;
      var front := events[..n];
      assert forall i :: 0 <= i <= n ==> front[..i] == events[..i];
      w := HistoryKeeps(c, front);
      w := AloneStep(c, Play(c, Start(c), front), events[n], w);
    }
  }

  function Crashes(events: seq<Event>): nat {
    if events == [] then 0 else Crashes(events[..|events| - 1]) + if events[|events| - 1].action == Crash then 1 else 0
  }

  lemma StepCrashes(c: Config, s: System, e: Event)
    ensures Step(c, s, e).crashes == s.crashes + if e.action == Crash then 1 else 0
  {
  }

  lemma {:induction false} CrashesCounted(c: Config, events: seq<Event>)
    ensures Play(c, Start(c), events).crashes == Crashes(events)
  {
    if events != [] {
      CrashesCounted(c, events[..|events| - 1]);
      StepCrashes(c, Play(c, Start(c), events[..|events| - 1]), events[|events| - 1]);
    }
  }

  /** With one advance at a time the provider is called at most once an attempt, plus once for each crash;
      without crashes at most scenarios x maxProviderAttempts times. */
  lemma CallsBounded(c: Config, events: seq<Event>)
    requires ValidConfig(c) && NoCollision(c) && NoOverlap(c, events)
    ensures Play(c, Start(c), events).calls <= |c.scenarios| * c.maxAttempts + Crashes(events)
  {
    var w := HistoryKeeps(c, events);
    CrashesCounted(c, events);
    AttemptsBounded(Play(c, Start(c), events).campaign.items, c.maxAttempts);
  }

  /** With one advance at a time a FINALIZED item has the scorecard its last run settled on. */
  lemma ScorecardsSettled(c: Config, events: seq<Event>, i: nat)
    requires ValidConfig(c) && NoCollision(c) && NoOverlap(c, events) && i < |c.scenarios|
    ensures var s := Play(c, Start(c), events);
            && i < |s.campaign.items|
            && (s.campaign.items[i].state == Finalized ==>
                  var item := s.campaign.items[i];
                  && item.runIds != [] && item.scorecard.Some? && item.runIds[|item.runIds| - 1] in s.runs
                  && s.runs[item.runIds[|item.runIds| - 1]]
                    == Run(ProviderSuccess, JudgeFinalized(item.scorecard.value)))
  {
    var w := HistoryKeeps(c, events);
    assert ItemShape(c, i, Play(c, Start(c), events).campaign.items[i]);
  }

  lemma {:induction false} PlayConcat(c: Config, s: System, a: seq<Event>, b: seq<Event>)
    ensures Play(c, s, a + b) == Play(c, Play(c, s, a), b)
  {
    if b == [] {
      assert a + b == a;
    } else {
      assert (a + b)[..|a + b| - 1] == a + b[..|b| - 1];
      PlayConcat(c, s, a, b[..|b| - 1]);
    }
  }

  lemma NobodyLeft(c: Config, s: System, w: nat)
    requires Alone(c, s, w) && SystemSound(c, s) && Terminal(s.campaign.state)
    ensures Settled(c, s)
  {
    assert PcOf(s, w) == Idle;
    forall v | v in s.advances ensures PcOf(s, v) == Idle {}
  }

  /** A campaign that has ended in a history of one advance at a time keeps its whole record, however the
      history goes on, overlapping or not. */
  lemma EndedStays(c: Config, events: seq<Event>, more: seq<Event>)
    requires ValidConfig(c) && NoCollision(c) && NoOverlap(c, events)
    requires Terminal(Play(c, Start(c), events).campaign.state)
    ensures Play(c, Start(c), events + more).campaign == Play(c, Start(c), events).campaign
  {
    var s := Play(c, Start(c), events);
    var w := HistoryKeeps(c, events);
    HistorySound(c, events);
    NobodyLeft(c, s, w);
    SettledStays(c, s, more);
    PlayConcat(c, Start(c), events, more);
  }

  // ---------- what goes wrong when advances overlap ----------

  /** A process opens the first attempt and waits for the provider. */
  const FIRST_CALL: seq<Event> := [Event(0, AdvanceBegins), Event(0, Continues), Event(0, Continues)]

  const FIRST_ANSWER: seq<Event> := [Event(0, ProviderAnswers(true, true)), Event(0, Continues)]

  lemma FirstRun(c: Config)
    requires ValidConfig(c)
    ensures var start := Start(c); var s := Step(c, start, Event(0, AdvanceBegins));
            && s == start.(runs := map[RunId(c, 0, 1) := Run(ProviderPending, NotSubmitted)],
                           advances := map[0 := Created(start.campaign, 0)])
  {
    FirstOpenIs(Start(c).campaign.items, 0);
  }

  lemma FirstOpened(c: Config, s: System)
    requires ValidConfig(c) && s.campaign == Start(c).campaign && PcOf(s, 0) == Created(s.campaign, 0)
    ensures var next := UpdateItem(s.campaign, 0, NextAttempt(c, Fresh(c.scenarios[0].id), 0), Running);
            && Step(c, s, Event(0, Continues)) == s.(campaign := next, advances := s.advances[0 := Opened(next, 0)])
            && FirstOpen(next.items) == 0 && next.items[0].current == Some(RunId(c, 0, 1))
  {
    var next := UpdateItem(s.campaign, 0, NextAttempt(c, Fresh(c.scenarios[0].id), 0), Running);
    FirstOpenIs(next.items, 0);
  }

  lemma FirstCalled(c: Config, s: System, id: string)
    requires PcOf(s, 0) == Opened(s.campaign, 0) && |s.campaign.items| > 0 && s.campaign.items[0].current == Some(id)
    requires id in s.runs && s.runs[id].provider == ProviderPending && id !in s.called
    ensures Step(c, s, Event(0, Continues))
         == s.(advances := s.advances[0 := AwaitingProvider(s.campaign, 0)], calls := s.calls + 1,
               called := s.called + {id})
  {
  }

  lemma FirstCall(c: Config)
    requires ValidConfig(c)
    ensures var s, item := Play(c, Start(c), FIRST_CALL), NextAttempt(c, Fresh(c.scenarios[0].id), 0);
            && s.campaign == UpdateItem(Start(c).campaign, 0, item, Running) && FirstOpen(s.campaign.items) == 0
            && s.runs == map[RunId(c, 0, 1) := Run(ProviderPending, NotSubmitted)]
            && PcOf(s, 0) == AwaitingProvider(s.campaign, 0) && PcOf(s, 1) == Idle && s.calls == 1 && s.crashes == 0
            && s.called == {RunId(c, 0, 1)} && s.repeats == 0
  {
    var start, go := Start(c), Event(0, Continues);
    PlayThree(c, start, Event(0, AdvanceBegins), go, go);
    FirstRun(c);
    FirstOpened(c, Step(c, start, Event(0, AdvanceBegins)));
    FirstCalled(c, Step(c, Step(c, start, Event(0, AdvanceBegins)), go), RunId(c, 0, 1));
  }

  lemma AnswersAnyway(c: Config, s: System, copy: Campaign)
    requires PcOf(s, 0) == AwaitingProvider(copy, 0) && HasRun(s.runs, copy, 0)
    requires RunAt(s.runs, copy, 0) == Run(ProviderPending, NotSubmitted)
    ensures var t, judging := Play(c, s, FIRST_ANSWER), UpdateItem(copy, 0, copy.items[0].(state := Judging), Running);
            && t.campaign == judging && t.runs
              == s.runs[copy.items[0].current.value := Run(ProviderSuccess, NotSubmitted)]
            && t.advances == s.advances[0 := AwaitingSubmit(judging, 0)]
  {
    PlayTwo(c, s, FIRST_ANSWER[0], FIRST_ANSWER[1]);
  }

  /** A FAILED campaign runs again: another process answers a rejected advance with failInfrastructure while
      the first still waits for the provider. */
  lemma OverlapRevivesFailed(c: Config)
    requires ValidConfig(c)
    ensures var failed := Play(c, Start(c), FIRST_CALL + [Event(1, InfrastructureFails)]);
            failed.campaign.state == CampaignFailed && Play(c, failed, FIRST_ANSWER).campaign.state == Running
  {
    FirstCall(c);
    var s := Play(c, Start(c), FIRST_CALL);
    PlayConcat(c, Start(c), FIRST_CALL, [Event(1, InfrastructureFails)]);
    PlayOne(c, s, Event(1, InfrastructureFails));
    AnswersAnyway(c, Step(c, s, Event(1, InfrastructureFails)), s.campaign);
  }

  /** One attempt is called for twice, without a crash, when a second advance begins after an outlived lease. */
  lemma OverlapCallsTwice(c: Config)
    requires ValidConfig(c)
    ensures var s := Play(c, Start(c), FIRST_CALL + [Event(1, AdvanceBegins)]);
            && s.calls == 2 && s.repeats == 1 && s.crashes == 0
            && |s.campaign.items| == |c.scenarios| && s.campaign.items[0].attempt == 1 && |s.runs| == 1
  {
    FirstCall(c);
    PlayConcat(c, Start(c), FIRST_CALL, [Event(1, AdvanceBegins)]);
    PlayOne(c, Play(c, Start(c), FIRST_CALL), Event(1, AdvanceBegins));
  }

  /** A process waits in its poll; another begins after the outlived lease and polls too. */
  const TWO_POLLS: seq<Event> := [Event(0, SubmitEnds(Submitted)), Event(1, AdvanceBegins)]

  lemma TwoPolls(c: Config, s: System, campaign: Campaign)
    requires OpenAt(c, campaign, 0) && campaign.items[0].state == Judging && campaign.state == Running
    requires s.campaign == campaign && HasRun(s.runs, campaign, 0)
    requires RunAt(s.runs, campaign, 0) == Run(ProviderSuccess, NotSubmitted)
    requires PcOf(s, 0) == AwaitingSubmit(campaign, 0) && PcOf(s, 1) == Idle
    ensures var t := Play(c, s, TWO_POLLS);
            && t.campaign == campaign && HasRun(t.runs, campaign, 0)
            && PcOf(t, 0) == PcOf(t, 1) == AwaitingPoll(campaign, 0)
  {
    PlayTwo(c, s, TWO_POLLS[0], TWO_POLLS[1]);
    assert campaign.items[0 := campaign.items[0].(state := Judging)] == campaign.items;
  }

  const SCORED: Judge := JudgeFinalized("score")

  lemma PollsAgain(c: Config, s: System, campaign: Campaign)
    requires OpenAt(c, campaign, 0) && campaign.items[0].state == Judging && |campaign.items| == 1
    requires s.campaign == campaign && HasRun(s.runs, campaign, 0)
    requires PcOf(s, 0) == PcOf(s, 1) == AwaitingPoll(campaign, 0)
    ensures var final := Play(c, s, [Event(1, PollEnds(SCORED))]);
            && final.campaign.state == CampaignFinalized
            && Play(c, final, [Event(0, PollThrows(SCORED))]).campaign.state == Running
  {
    PlayOne(c, s, Event(1, PollEnds(SCORED)));
    PolledFinal(c, campaign, 0, "score");
    PlayOne(c, Step(c, s, Event(1, PollEnds(SCORED))), Event(0, PollThrows(SCORED)));
  }

  lemma FirstAnswer(c: Config)
    requires ValidConfig(c)
    ensures var s := Play(c, Start(c), FIRST_CALL + FIRST_ANSWER);
            && OpenAt(c, s.campaign, 0) && s.campaign.items[0].state == Judging && s.campaign.state == Running
            && HasRun(s.runs, s.campaign, 0) && RunAt(s.runs, s.campaign, 0) == Run(ProviderSuccess, NotSubmitted)
            && PcOf(s, 0) == AwaitingSubmit(s.campaign, 0) && PcOf(s, 1) == Idle
  {
    FirstCall(c);
    HistorySound(c, FIRST_CALL);
    var s := Play(c, Start(c), FIRST_CALL);
    JudgingFits(c, s.campaign, 0);
    AnswersAnyway(c, s, s.campaign);
    PlayConcat(c, Start(c), FIRST_CALL, FIRST_ANSWER);
  }

  /** A FINALIZED campaign runs again: the second process finalizes it, then the first one's poll rejects and
      puts its copy back. No failInfrastructure is involved. */
  lemma OverlapRevivesFinalized(c: Config)
    requires ValidConfig(c) && |c.scenarios| == 1
    ensures var final := Play(c, Start(c), FIRST_CALL + FIRST_ANSWER + TWO_POLLS + [Event(1, PollEnds(SCORED))]);
            && final.campaign.state == CampaignFinalized
            && Play(c, final, [Event(0, PollThrows(SCORED))]).campaign.state == Running
  {
    FirstAnswer(c);
    var judging := Play(c, Start(c), FIRST_CALL + FIRST_ANSWER);
    TwoPolls(c, judging, judging.campaign);
    PollsAgain(c, Play(c, judging, TWO_POLLS), judging.campaign);
    PlayConcat(c, Start(c), FIRST_CALL + FIRST_ANSWER, TWO_POLLS);
    PlayConcat(c, Start(c), FIRST_CALL + FIRST_ANSWER + TWO_POLLS, [Event(1, PollEnds(SCORED))]);
  }
}
