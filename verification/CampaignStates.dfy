// Which steps of the solo campaign end it, in any state of any number of advances:
// packages/evaluation/src/solo-runner.ts:99-110, 163-280.

module CampaignStates {
  import opened Wrappers
  import opened SoloCampaign

  function At(s: System, e: Event): State {
    View(s, e.process)
  }

  /** An advance's poll of its open item's run returns with this state. */
  predicate PollSays(v: State, a: Action, judge: Judge) {
    v.pc.AwaitingPoll? && HasRun(v.runs, v.pc.copy, v.pc.index) && a == PollEnds(judge) && judge != NotSubmitted
  }

  predicate PollScores(v: State, a: Action) {
    a.PollEnds? && a.judge.JudgeFinalized? && PollSays(v, a, a.judge)
  }

  /** The submission of an advance's open run has failed, and nothing of it is stored. */
  predicate SubmissionLost(v: State, a: Action) {
    v.pc.AwaitingSubmit? && HasRun(v.runs, v.pc.copy, v.pc.index) && a == SubmitEnds(NotSubmitted)
  }

  /** The step looks at the run of item k of this copy. */
  predicate LooksAt(v: State, a: Action, copy: Campaign, k: nat) {
    && HasRun(v.runs, copy, k)
    && (|| (a == Continues && (v.pc == Opened(copy, k) || v.pc == Recorded(copy, k)))
        || (a == AdvanceBegins && v.pc == Idle && !Terminal(v.campaign.state) && copy == v.campaign
            && copy.items[k].state != Finalized && forall i :: 0 <= i < k ==> copy.items[i].state == Finalized))
  }

  /** The provider has failed for the run the step looks at, with no attempt left. */
  ghost predicate Exhausted(c: Config, v: State, a: Action) {
    exists copy, k: nat :: LooksAt(v, a, copy, k) && RunAt(v.runs, copy, k).provider == ProviderFailed
                           && copy.items[k].attempt >= c.maxAttempts
  }

  predicate AllFinalized(items: seq<Item>) {
    forall i :: 0 <= i < |items| ==> items[i].state == Finalized
  }

  // ---------- step by step ----------

  lemma AfterProviderState(c: Config, s: State, copy: Campaign, k: nat, run: Run)
    requires k < |copy.items| && run.provider != ProviderPending
    ensures AfterProvider(c, s, copy, k, run).campaign.state
         == if run.provider == ProviderFailed && copy.items[k].attempt >= c.maxAttempts then CampaignFailed else Running
  {
  }

  lemma WithRunState(c: Config, s: State, copy: Campaign, k: nat)
    requires HasRun(s.runs, copy, k)
    ensures var t, run := WithRun(c, s, copy, k), RunAt(s.runs, copy, k);
            t.campaign.state ==
              if run.provider == ProviderPending then s.campaign.state
              else if run.provider == ProviderFailed && copy.items[k].attempt >= c.maxAttempts then CampaignFailed
              else Running
  {
    if RunAt(s.runs, copy, k).provider != ProviderPending {
      AfterProviderState(c, s, copy, k, RunAt(s.runs, copy, k));
    }
  }

  lemma BeginState(c: Config, v: State)
    requires Sound(c, v)
    ensures var t := Begin(c, v);
            && (t.campaign.state == CampaignFailed && v.campaign.state != CampaignFailed ==>
                  Exhausted(c, v, AdvanceBegins))
            && (t.campaign.state == CampaignFinalized && v.campaign.state != CampaignFinalized <==>
                  v.pc == Idle && !Terminal(v.campaign.state) && AllFinalized(v.campaign.items))
            && (t.campaign.state == CampaignUncertain ==> v.campaign.state == CampaignUncertain)
  {
    var k := FirstOpen(v.campaign.items);
    if v.pc == Idle && !Terminal(v.campaign.state) && k < |v.campaign.items| && v.campaign.items[k].current.Some? {
      if HasRun(v.runs, v.campaign, k) {
        WithRunState(c, v, v.campaign, k);
        assert LooksAt(v, AdvanceBegins, v.campaign, k);
      }
    }
  }

  lemma BeginFails(c: Config, v: State)
    requires Sound(c, v) && Exhausted(c, v, AdvanceBegins)
    ensures Begin(c, v).campaign.state == CampaignFailed
  {
    var copy, k: nat :| LooksAt(v, AdvanceBegins, copy, k) && RunAt(v.runs, copy, k).provider == ProviderFailed
      && copy.items[k].attempt >= c.maxAttempts;
    FirstOpenIs(v.campaign.items, k);
    WithRunState(c, v, copy, k);
  }

  lemma ContinueState(c: Config, v: State)
    requires Sound(c, v)
    ensures var t := Continue(c, v);
            && (t.campaign.state == CampaignFailed && v.campaign.state != CampaignFailed ==> Exhausted(c, v, Continues))
            && (t.campaign.state == CampaignFinalized ==> v.campaign.state == CampaignFinalized)
            && (t.campaign.state == CampaignUncertain ==> v.campaign.state == CampaignUncertain)
  {
    match v.pc
    case Opened(copy, k) =>
      WithRunState(c, v, copy, k);
      assert LooksAt(v, Continues, copy, k);
    case Recorded(copy, k) =>
      AfterProviderState(c, v, copy, k, RunAt(v.runs, copy, k));
      assert LooksAt(v, Continues, copy, k);
    case _ =>
  }

  lemma ContinueFails(c: Config, v: State)
    requires Sound(c, v) && Exhausted(c, v, Continues)
    ensures Continue(c, v).campaign.state == CampaignFailed
  {
    var copy, k: nat :| LooksAt(v, Continues, copy, k) && RunAt(v.runs, copy, k).provider == ProviderFailed
      && copy.items[k].attempt >= c.maxAttempts;
    WithRunState(c, v, copy, k);
    AfterProviderState(c, v, copy, k, RunAt(v.runs, copy, k));
  }

  lemma PolledState(copy: Campaign, k: nat, judge: Judge)
    requires k < |copy.items|
    ensures Polled(copy, k, judge).state ==
      match judge
      case Recovery => CampaignUncertain
      case JudgeFailed => CampaignFailed
      case JudgeFinalized(_) =>
        if forall i :: 0 <= i < |copy.items| && i != k ==> copy.items[i].state == Finalized then CampaignFinalized
        else Running
      case _ => Running
  {
    if judge.JudgeFinalized? {
      var next := copy.items[k := copy.items[k].(state := Finalized, scorecard := Some(judge.scorecard))];
      if forall i :: 0 <= i < |copy.items| && i != k ==> copy.items[i].state == Finalized {
        FirstOpenIs(next, |next|);
      } else {
        var i :| 0 <= i < |copy.items| && i != k && copy.items[i].state != Finalized;
        assert next[i].state != Finalized;
      }
    }
  }

  lemma OtherStates(c: Config, v: State, a: Action)
    requires Sound(c, v) && !a.AdvanceBegins? && !a.Continues? && !a.PollEnds?
    ensures var t := Next(c, v, a).campaign.state;
            && (t == CampaignFailed && v.campaign.state != CampaignFailed <==>
                  v.campaign.state != CampaignFailed
                  && (SubmissionLost(v, a) || (a == InfrastructureFails && !Terminal(v.campaign.state))))
            && (t == CampaignFinalized ==> v.campaign.state == CampaignFinalized)
            && (t == CampaignUncertain ==> v.campaign.state == CampaignUncertain)
  {
  }

  lemma PollStates(c: Config, v: State, judge: Judge)
    requires Sound(c, v)
    ensures Next(c, v, PollEnds(judge)).campaign
         == if PollSays(v, PollEnds(judge), judge) then Polled(v.pc.copy, v.pc.index, judge) else v.campaign
    ensures PollSays(v, PollEnds(judge), judge) ==> v.pc.index < |v.pc.copy.items|
  {
  }

  // ---------- the ends of a campaign ----------

  /** RECOVERY_REQUIRED is stored exactly when a poll says that the run requires recovery. */
  lemma UncertainExactly(c: Config, s: System, e: Event)
    requires ValidConfig(c) && SystemSound(c, s) && s.campaign.state != CampaignUncertain
    ensures Step(c, s, e).campaign.state == CampaignUncertain <==> PollSays(At(s, e), e.action, Recovery)
  {
    var v := At(s, e);
    match e.action
    case AdvanceBegins => BeginState(c, v);
    case Continues => ContinueState(c, v);
    case PollEnds(judge) =>
      PollStates(c, v, judge);
      if PollSays(v, e.action, judge) { PolledState(v.pc.copy, v.pc.index, judge); }
    case _ => OtherStates(c, v, e.action);
  }

  /** FAILED is stored exactly when a poll says that the judge failed, when a submission is lost before anything of it
      is stored, when the provider has failed in the last attempt, or when the caller of a rejected advance fails a
      campaign that has not ended. */
  lemma FailedExactly(c: Config, s: System, e: Event)
    requires ValidConfig(c) && SystemSound(c, s) && s.campaign.state != CampaignFailed
    ensures Step(c, s, e).campaign.state == CampaignFailed <==>
              || PollSays(At(s, e), e.action, JudgeFailed) || SubmissionLost(At(s, e), e.action)
              || Exhausted(c, At(s, e), e.action)
              || (e.action == InfrastructureFails && !Terminal(s.campaign.state))
  {
    var v := At(s, e);
    match e.action
    case AdvanceBegins =>
      BeginState(c, v);
      if Exhausted(c, v, AdvanceBegins) { BeginFails(c, v); }
    case Continues =>
      ContinueState(c, v);
      if Exhausted(c, v, Continues) { ContinueFails(c, v); }
    case PollEnds(judge) =>
      PollStates(c, v, judge);
      if PollSays(v, e.action, judge) { PolledState(v.pc.copy, v.pc.index, judge); }
    case _ => OtherStates(c, v, e.action);
  }

  /** FINALIZED is stored exactly when a poll brings the last missing scorecard of the advance's copy, or an advance
      begins on a campaign whose items are all finalized. */
  lemma FinalizedByStep(c: Config, s: System, e: Event)
    requires ValidConfig(c) && SystemSound(c, s) && s.campaign.state != CampaignFinalized
    ensures Step(c, s, e).campaign.state == CampaignFinalized <==>
              || (PollScores(At(s, e), e.action) && OthersFinalized(At(s, e).pc.copy, At(s, e).pc.index))
              || (e.action == AdvanceBegins && At(s, e).pc == Idle && !Terminal(s.campaign.state)
                  && AllFinalized(s.campaign.items))
  {
    var v := At(s, e);
    match e.action
    case AdvanceBegins => BeginState(c, v);
    case Continues => ContinueState(c, v);
    case PollEnds(judge) =>
      PollStates(c, v, judge);
      if PollSays(v, e.action, judge) { PolledState(v.pc.copy, v.pc.index, judge); }
    case _ => OtherStates(c, v, e.action);
  }

  predicate OthersFinalized(copy: Campaign, k: nat) {
    forall i :: 0 <= i < |copy.items| && i != k ==> copy.items[i].state == Finalized
  }

  function Answered(item: Item, judge: Judge): Item {
    match judge
    case Recovery => item.(state := Uncertain)
    case JudgeFailed => item.(state := Failed)
    case JudgeFinalized(scorecard) => item.(state := Finalized, scorecard := Some(scorecard))
    case _ => item
  }

  /** What a poll's answer makes of the items: only that of the run, and with its scorecard if there is one. */
  lemma PolledItem(c: Config, s: System, e: Event, judge: Judge)
    requires ValidConfig(c) && SystemSound(c, s) && PollSays(At(s, e), e.action, judge)
    ensures var copy, k := At(s, e).pc.copy, At(s, e).pc.index;
            && k < |copy.items|
            && Step(c, s, e).campaign.items == copy.items[k := Answered(copy.items[k], judge)]
  {
    PollStates(c, At(s, e), judge);
  }

  /** A provider's failure with attempts left makes the item RETRYABLE, without a current run. */
  lemma FailureIsRetried(c: Config, s: System, e: Event, copy: Campaign, k: nat)
    requires ValidConfig(c) && SystemSound(c, s) && LooksAt(At(s, e), e.action, copy, k)
    requires RunAt(s.runs, copy, k).provider == ProviderFailed && copy.items[k].attempt < c.maxAttempts
    ensures Step(c, s, e).campaign
         == Campaign(Running, copy.items[k := copy.items[k].(state := Retryable, current := None)])
  {
    if e.action == AdvanceBegins { FirstOpenIs(s.campaign.items, k); }
  }

  // ---------- answers of the provider ----------

  /** The provider answers an advance that waits for it. */
  predicate AtProvider(v: State) {
    v.pc.AwaitingProvider? && HasRun(v.runs, v.pc.copy, v.pc.index)
  }

  /** The first answer for a run is recorded. A later one, of another advance, lets its own advance go on when it agrees
      with the recorded success, or when it agrees with the recorded failure; any other later answer ends that
      advance, and records nothing. */
  lemma AnswerExactly(c: Config, s: System, e: Event, success: bool, agrees: bool)
    requires SystemSound(c, s) && AtProvider(At(s, e)) && e.action == ProviderAnswers(success, agrees)
    ensures var v, t, pc := At(s, e), Step(c, s, e), PcOf(Step(c, s, e), e.process);
            var id := v.pc.copy.items[v.pc.index].current.value;
            var provider := RunAt(v.runs, v.pc.copy, v.pc.index).provider;
            && t.campaign == s.campaign
            && (provider == ProviderPending ==>
                  && pc == Recorded(v.pc.copy, v.pc.index) && id in t.runs
                  && t.runs[id].provider == if success then ProviderSuccess else ProviderFailed)
            && (provider != ProviderPending ==> t.runs == s.runs)
            && (provider == ProviderSuccess ==>
                  pc == if success && agrees then Recorded(v.pc.copy, v.pc.index) else Idle)
            && (provider == ProviderFailed ==>
                  pc == if agrees then Recorded(v.pc.copy, v.pc.index) else Idle)
  {
  }
}
