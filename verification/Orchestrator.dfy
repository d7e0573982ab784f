// Running a tournament: packages/orchestrator/src/orchestrator.ts. The inference and judge ports are
// arbitrary deterministic oracles, and so is the clock: whether the tournament's expiry has come is read
// once at the start, and again before every attempt of a match.

module Orchestrator {
  import opened Wrappers
  import opened Canonical
  import opened Bracket
  import opened Progression
  import opened Elimination
  import opened Ranking
  import opened Identifiers

  datatype Context = Context(matchId: Digest, attemptId: Digest, topic: string, agentA: Digest, agentB: Digest)
  datatype Outputs = Outputs(a: string, b: string)
  datatype Pair = Ready(outputs: Outputs) | Incomplete(reason: string) | InferenceThrows
  datatype Judgment = Waiting | NoConsensus | JudgeFailed | JudgeThrows | Verdict(result: MatchResult)

  datatype Input = Input(
    env: Env, entrants: seq<Digest>, topics: seq<string>, seededTopics: bool, retryCap: nat,
    attemptId: (Digest, nat) -> Digest, abandoned: set<Digest>,
    infer: Context -> Pair, judge: (Context, Outputs) -> Judgment,
    late: bool, expired: (Digest, nat) -> bool)

  /** What the calls before the match loop demand of their input. */
  ghost predicate Accepted(input: Input) {
    Legal(input.env, input.entrants) && input.topics != [] && input.retryCap >= 1
  }

  datatype RefundReason = TournamentExpired | RetryExhausted
  datatype Execution =
    | Win(result: MatchResult)
    | WaitingForJudge(attemptId: Digest)
    | RecoveryRequired(attemptId: Digest, reason: string)
    | RefundRequired(why: RefundReason)
    | InferenceRejected

  datatype Outcome =
    | RankingReady(ranking: seq<Digest>, results: Results)
    | Blocked(matchId: Digest, execution: Execution, results: Results, active: map<Digest, Execution>)
    | Refund(why: RefundReason)
    | Rejected

  function Topic(input: Input, m: Match, ordinal: nat, number: nat): string
    requires input.topics != [] && number >= 1
  {
    var i := if input.seededTopics then ordinal + number - 1 else m.index + number - 1;
    input.topics[i % |input.topics|]
  }

  function AttemptContext(input: Input, m: Match, ordinal: nat, number: nat, a: Digest, b: Digest): Context
    requires input.topics != [] && number >= 1
  {
    Context(m.id, input.attemptId(m.id, number), Topic(input, m, ordinal, number), a, b)
  }

  /** What one attempt decides; None is "go on to the next attempt". */
  function Attempt(input: Input, c: Context): Option<Execution> {
    if c.attemptId in input.abandoned then None
    else
      match input.infer(c)
      case InferenceThrows => Some(InferenceRejected)
      case Incomplete(reason) => Some(RecoveryRequired(c.attemptId, reason))
      case Ready(outputs) =>
        match input.judge(c, outputs)
        case Waiting => Some(WaitingForJudge(c.attemptId))
        case NoConsensus => None
        case JudgeFailed => Some(RecoveryRequired(c.attemptId, "JUDGE_FAILED"))
        case JudgeThrows => Some(RecoveryRequired(c.attemptId, "JUDGE_ERROR"))
        case Verdict(result) => if result == AWin || result == BWin then Some(Win(result)) else None
  }

  /** The attempts from some number on, in the sequential runner's terms. */
  function AttemptsFrom(input: Input, m: Match, ordinal: nat, number: nat, a: Digest, b: Digest): Execution
    requires input.topics != [] && number >= 1
    decreases input.retryCap + 1 - number
  {
    if number > input.retryCap then RefundRequired(RetryExhausted)
    else if input.expired(m.id, number) then RefundRequired(TournamentExpired)
    else
      match Attempt(input, AttemptContext(input, m, ordinal, number, a, b))
      case Some(e) => e
      case None => AttemptsFrom(input, m, ordinal, number + 1, a, b)
  }

  /** The concurrent runner catches a rejected inference where the sequential one passes it on. */
  function Caught(input: Input, m: Match, ordinal: nat, number: nat, a: Digest, b: Digest): Execution
    requires input.topics != [] && number >= 1
    decreases input.retryCap + 1 - number
  {
    if number > input.retryCap then RefundRequired(RetryExhausted)
    else if input.expired(m.id, number) then RefundRequired(TournamentExpired)
    else
      var c := AttemptContext(input, m, ordinal, number, a, b);
      match Attempt(input, c)
      case Some(InferenceRejected) => RecoveryRequired(c.attemptId, "PROVIDER_ERROR")
      case Some(e) => e
      case None => Caught(input, m, ordinal, number + 1, a, b)
  }

  lemma {:induction false} CaughtWinsAlike(input: Input, m: Match, ordinal: nat, number: nat, a: Digest, b: Digest)
    requires input.topics != [] && number >= 1
    ensures var s, c := AttemptsFrom(input, m, ordinal, number, a, b), Caught(input, m, ordinal, number, a, b);
            if s == InferenceRejected then c.RecoveryRequired? && c.reason == "PROVIDER_ERROR" else c == s
    decreases input.retryCap + 1 - number
  {
    if number <= input.retryCap && !input.expired(m.id, number)
      && Attempt(input, AttemptContext(input, m, ordinal, number, a, b)).None?
    {
      CaughtWinsAlike(input, m, ordinal, number + 1, a, b);
    }
  }

  // ---------- what decides a match ----------

  /** The context of attempt k of match number n between a and b. */
  predicate IsContext(input: Input, m: Match, n: nat, k: nat, a: Digest, b: Digest, c: Context)
    requires input.topics != [] && k >= 1
  {
    && c.matchId == m.id && c.attemptId == input.attemptId(m.id, k) && c.agentA == a && c.agentB == b
    && c.topic == input.topics[((if input.seededTopics then n else m.index) + k - 1) % |input.topics|]
  }

  /** The judge's answer to an attempt. */
  predicate Answers(input: Input, c: Context, j: Judgment) {
    c.attemptId !in input.abandoned && input.infer(c).Ready? && input.judge(c, input.infer(c).outputs) == j
  }

  /** An attempt that goes on to the next one: abandoned, without consensus, or with a verdict for neither side. */
  predicate GoesOn(input: Input, c: Context) {
    || c.attemptId in input.abandoned
    || Answers(input, c, NoConsensus) || Answers(input, c, Verdict(Tie)) || Answers(input, c, Verdict(Retryable))
  }

  /** An attempt that ends the match in this way. A rejected inference is caught by the concurrent runner only. */
  predicate AttemptEnds(input: Input, c: Context, caught: bool, e: Execution) {
    match e
    case Win(result) => (result == AWin || result == BWin) && Answers(input, c, Verdict(result))
    case WaitingForJudge(id) => id == c.attemptId && Answers(input, c, Waiting)
    case RecoveryRequired(id, reason) =>
      && id == c.attemptId
      && (|| (c.attemptId !in input.abandoned && input.infer(c) == Incomplete(reason))
          || (Answers(input, c, JudgeFailed) && reason == "JUDGE_FAILED")
          || (Answers(input, c, JudgeThrows) && reason == "JUDGE_ERROR")
          || (caught && InferenceFails(input, c) && reason == "PROVIDER_ERROR"))
    case InferenceRejected => !caught && InferenceFails(input, c)
    case RefundRequired(_) => false
  }

  predicate InferenceFails(input: Input, c: Context) {
    c.attemptId !in input.abandoned && input.infer(c) == InferenceThrows
  }

  /** The attempts before k go on, none of them after the expiry; attempt k ends the match, or finds the tournament
      expired, or would be one too many. */
  ghost predicate DecidedAt(input: Input, m: Match, n: nat, a: Digest, b: Digest, caught: bool, e: Execution, k: nat)
    requires input.topics != []
  {
    && 1 <= k <= input.retryCap + 1
    && (forall j, c :: 1 <= j < k && IsContext(input, m, n, j, a, b, c) ==> !input.expired(m.id, j) && GoesOn(input, c))
    && if k == input.retryCap + 1 then e == RefundRequired(RetryExhausted)
       else if input.expired(m.id, k) then e == RefundRequired(TournamentExpired)
       else forall c :: IsContext(input, m, n, k, a, b, c) ==> AttemptEnds(input, c, caught, e)
  }

  lemma AttemptMeans(input: Input, c: Context)
    ensures match Attempt(input, c)
            case None => GoesOn(input, c)
            case Some(e) => AttemptEnds(input, c, false, e)
  {
  }

  lemma {:induction false} AttemptsDecide(input: Input, m: Match, n: nat, number: nat, a: Digest, b: Digest)
      returns (k: nat)
    requires input.topics != [] && 1 <= number <= input.retryCap + 1
    requires forall j, c :: 1 <= j < number && IsContext(input, m, n, j, a, b, c) ==>
      !input.expired(m.id, j) && GoesOn(input, c)
    ensures DecidedAt(input, m, n, a, b, false, AttemptsFrom(input, m, n, number, a, b), k)
    decreases input.retryCap + 1 - number
  {
    k := number;
    if number <= input.retryCap && !input.expired(m.id, number) {
      var c := AttemptContext(input, m, n, number, a, b);
      assert forall c' :: IsContext(input, m, n, number, a, b, c') ==> c' == c;
      AttemptMeans(input, c);
      if Attempt(input, c).None? { k := AttemptsDecide(input, m, n, number + 1, a, b); }
    }
  }

  /** Under the catch the same attempt decides. */
  lemma {:induction false} CaughtDecide(input: Input, m: Match, n: nat, number: nat, a: Digest, b: Digest)
      returns (k: nat)
    requires input.topics != [] && 1 <= number <= input.retryCap + 1
    requires forall j, c :: 1 <= j < number && IsContext(input, m, n, j, a, b, c) ==>
      !input.expired(m.id, j) && GoesOn(input, c)
    ensures DecidedAt(input, m, n, a, b, true, Caught(input, m, n, number, a, b), k)
    decreases input.retryCap + 1 - number
  {
    k := number;
    if number <= input.retryCap && !input.expired(m.id, number) {
      var c := AttemptContext(input, m, n, number, a, b);
      assert forall c' :: IsContext(input, m, n, number, a, b, c') ==> c' == c;
      AttemptMeans(input, c);
      if Attempt(input, c).None? { k := CaughtDecide(input, m, n, number + 1, a, b); }
    }
  }

  // ---------- the results of a tournament, match by match ----------

  function Sides(ms: seq<Match>, n: nat, results: Results): Option<(Digest, Digest)>
    requires n < |ms|
  {
    var a, b := Walk(ms[..n], results, ms[n].slotA), Walk(ms[..n], results, ms[n].slotB);
    if a.Some? && b.Some? then Some((a.value, b.value)) else None
  }

  /** The results after the first n matches; None once one of them is not won. */
  function ResultsAfter(input: Input, ms: seq<Match>, n: nat): Option<Results>
    requires input.topics != [] && n <= |ms|
  {
    if n == 0 then Some(map[])
    else
      match ResultsAfter(input, ms, n - 1)
      case None => None
      case Some(results) =>
        match Sides(ms, n - 1, results)
        case None => None
        case Some((a, b)) =>
          var e := AttemptsFrom(input, ms[n - 1], n - 1, 1, a, b);
          if e.Win? then Some(results[ms[n - 1].id := e.result]) else None
  }

  lemma ResultsUnfold(input: Input, ms: seq<Match>, n: nat) returns (before: Results, result: MatchResult)
    requires input.topics != [] && 0 < n <= |ms| && ResultsAfter(input, ms, n).Some?
    ensures ResultsAfter(input, ms, n - 1) == Some(before)
    ensures ResultsAfter(input, ms, n) == Some(before[ms[n - 1].id := result])
    ensures result == AWin || result == BWin
  {
    before := ResultsAfter(input, ms, n - 1).value;
    var sides := Sides(ms, n - 1, before).value;
    AttemptsWinDecisively(input, ms[n - 1], n - 1, 1, sides.0, sides.1);
    result := AttemptsFrom(input, ms[n - 1], n - 1, 1, sides.0, sides.1).result;
  }

  lemma DecideNext(ms: seq<Match>, n: nat, before: Results, result: MatchResult)
    requires 0 < n <= |ms| && UniqueIds(ms) && (result == AWin || result == BWin)
    requires before.Keys == IdSet(ms[..n - 1]) && Decided(ms[..n - 1], before)
    ensures before[ms[n - 1].id := result].Keys == IdSet(ms[..n]) && Decided(ms[..n], before[ms[n - 1].id := result])
  {
    var m := ms[n - 1];
    assert ms[..n] == ms[..n - 1] + [m];
    assert IdSet(ms[..n]) == IdSet(ms[..n - 1]) + {m.id};
  }

  lemma {:induction false} ResultsDecide(input: Input, ms: seq<Match>, n: nat)
    requires input.topics != [] && n <= |ms| && UniqueIds(ms) && ResultsAfter(input, ms, n).Some?
    ensures var results := ResultsAfter(input, ms, n).value;
            results.Keys == IdSet(ms[..n]) && Decided(ms[..n], results)
  {
    if n == 0 {
      assert ms[..0] == [];
    } else {
      ResultsDecide(input, ms, n - 1);
      var before, result := ResultsUnfold(input, ms, n);
      DecideNext(ms, n, before, result);
    }
  }

  lemma {:induction false} AttemptsWinDecisively(input: Input, m: Match, ordinal: nat, number: nat, a: Digest,
      b: Digest)
    requires input.topics != [] && number >= 1
    ensures var e := AttemptsFrom(input, m, ordinal, number, a, b); e.Win? ==> e.result == AWin || e.result == BWin
    decreases input.retryCap + 1 - number
  {
    if number <= input.retryCap && !input.expired(m.id, number)
      && Attempt(input, AttemptContext(input, m, ordinal, number, a, b)).None?
    {
      AttemptsWinDecisively(input, m, ordinal, number + 1, a, b);
    }
  }

  lemma {:induction false} LostStaysLost(input: Input, ms: seq<Match>, n: nat, k: nat)
    requires input.topics != [] && n <= k <= |ms| && ResultsAfter(input, ms, n).None?
    ensures ResultsAfter(input, ms, k).None?
    decreases k
  {
    if n < k {
      LostStaysLost(input, ms, n, k - 1);
    }
  }

  lemma {:induction false} ResultsGrow(input: Input, ms: seq<Match>, n: nat, k: nat)
    requires input.topics != [] && n <= k <= |ms| && UniqueIds(ms) && ResultsAfter(input, ms, k).Some?
    ensures ResultsAfter(input, ms, n).Some?
    ensures var early, late := ResultsAfter(input, ms, n).value, ResultsAfter(input, ms, k).value;
            forall i :: 0 <= i < n ==> ms[i].id in early && ms[i].id in late && late[ms[i].id] == early[ms[i].id]
    decreases k
  {
    if n < k {
      ResultsGrow(input, ms, n, k - 1);
    } else {
      ResultsDecide(input, ms, n);
      assert forall i :: 0 <= i < n ==> ms[i] in ms[..n];
    }
  }

  // ---------- the sequential runner ----------

  method RunAttempts(input: Input, m: Match, ordinal: nat, a: Digest, b: Digest) returns (e: Execution)
    requires input.topics != []
    ensures e == AttemptsFrom(input, m, ordinal, 1, a, b)
  {
    var number := 1;
    while number <= input.retryCap
      invariant 1 <= number <= input.retryCap + 1
      invariant AttemptsFrom(input, m, ordinal, 1, a, b) == AttemptsFrom(input, m, ordinal, number, a, b)
    {
      if input.expired(m.id, number) { return RefundRequired(TournamentExpired); }
      var step := Attempt(input, AttemptContext(input, m, ordinal, number, a, b));
      if step.Some? { return step.value; }
      number := number + 1;
    }
    return RefundRequired(RetryExhausted);
  }

  /** The sides of match n resolve to entrants, and its execution is what decides whether the
      sequential run has results after it. */
  lemma NextMatch(input: Input, ms: seq<Match>, n: nat, results: Results)
    requires input.topics != [] && Sorted(ms) && EntrantsIn(ms, input.entrants) && n < |ms|
    requires ResultsAfter(input, ms, n) == Some(results)
    ensures Known(ms[..n], ms[n].slotA) && Known(ms[..n], ms[n].slotB)
    ensures var a, b := ResolveSlot(ms, n, results, ms[n].slotA), ResolveSlot(ms, n, results, ms[n].slotB);
            && a.Some? && b.Some? && a.value in input.entrants && b.value in input.entrants
            && Sides(ms, n, results) == Some((a.value, b.value))
            && ResultsAfter(input, ms, n + 1) == var e := AttemptsFrom(input, ms[n], n, 1, a.value, b.value);
                                                 if e.Win? then Some(results[ms[n].id := e.result]) else None
  {
    ResultsGrow(input, ms, n, n);
    SidesKnown(input, ms, n, n, results);
  }

  /** What the sequential runner answers at a match that is not won. */
  function Halt(e: Execution, id: Digest, results: Results): (o: Outcome)
    requires !e.Win?
    ensures !o.RankingReady?
  {
    if e.RefundRequired? then Refund(e.why)
    else if e == InferenceRejected then Rejected
    else Blocked(id, e, results, map[])
  }

  /** The outcome when match n is the first that is not won. */
  ghost predicate HaltsAt(input: Input, ms: seq<Match>, n: nat, o: Outcome)
    requires input.topics != [] && n < |ms|
  {
    && ResultsAfter(input, ms, n).Some?
    && var results := ResultsAfter(input, ms, n).value;
       && Sides(ms, n, results).Some?
       && var e := AttemptsFrom(input, ms[n], n, 1, Sides(ms, n, results).value.0, Sides(ms, n, results).value.1);
          !e.Win? && o == Halt(e, ms[n].id, results)
  }

  /** One pass of the match loop of lines 95-128. */
  method PlayMatch(input: Input, ms: seq<Match>, n: nat, results: Results)
      returns (after: Results, stopped: Option<Outcome>)
    requires input.topics != [] && Sorted(ms) && EntrantsIn(ms, input.entrants) && n < |ms|
    requires ResultsAfter(input, ms, n) == Some(results)
    ensures stopped.None? ==> ResultsAfter(input, ms, n + 1) == Some(after)
    ensures stopped.Some? ==>
      ResultsAfter(input, ms, |ms|).None? && !stopped.value.RankingReady? && HaltsAt(input, ms, n, stopped.value)
  {
    NextMatch(input, ms, n, results);
    var sideA, sideB := ResolveSlot(ms, n, results, ms[n].slotA), ResolveSlot(ms, n, results, ms[n].slotB);
    assert sideA.Some? && sideB.Some?;  // orchestrator.ts:98 never throws
    assert sideA.value in input.entrants && sideB.value in input.entrants;  // nor does orchestrator.ts:100
    var e := RunAttempts(input, ms[n], n, sideA.value, sideB.value);
    if e.Win? { return results[ms[n].id := e.result], None; }
    LostStaysLost(input, ms, n + 1, |ms|);
    after := results;
    stopped := Some(Halt(e, ms[n].id, results));
  }

  /** The match loop of lines 95-128. */
  method PlayInTurn(input: Input, ms: seq<Match>) returns (results: Results, stopped: Option<Outcome>)
    requires input.topics != [] && Sorted(ms) && EntrantsIn(ms, input.entrants)
    ensures stopped.None? ==> ResultsAfter(input, ms, |ms|) == Some(results)
    ensures stopped.Some? ==> ResultsAfter(input, ms, |ms|).None? && !stopped.value.RankingReady?
    ensures stopped.Some? ==> exists n :: 0 <= n < |ms| && HaltsAt(input, ms, n, stopped.value)
  {
    results, stopped := map[], None;
    var n := 0;
    while n < |ms|
      invariant 0 <= n <= |ms| && stopped.None?
      invariant ResultsAfter(input, ms, n) == Some(results)
    {
      results, stopped := PlayMatch(input, ms, n, results);
      if stopped.Some? { return; }
      n := n + 1;
    }
  }

  /** The runner ends with a ranking exactly when every match is won in turn, and then with the
      results of those wins and the ranking they give. Its "predecessor is not terminal", "resolved
      entrant is missing" and "did not produce ranking" throws are unreachable. */
  method Run(input: Input) returns (r: Outcome)
    requires Accepted(input)
    ensures var b := BlueprintOf(input.env, input.entrants); var results := ResultsAfter(input, b.matches, |b.matches|);
            && (r.RankingReady? <==> !input.late && results.Some?)
            && (r.RankingReady? ==> r.results == results.value
                                    && Advance(b, results.value) == Success(Complete(r.ranking)))
    ensures var ms := BlueprintOf(input.env, input.entrants).matches;
            !input.late && !r.RankingReady? ==>
              exists n :: 0 <= n < |ms| && HaltsAt(input, ms, n, r) && StoppedAt(input, ms, n, r)
    ensures r.RankingReady? ==> AllWon(input, BlueprintOf(input.env, input.entrants).matches, r.results)
    ensures input.late ==> r == Refund(TournamentExpired)
  {
    if input.late { return Refund(TournamentExpired); }
    var bracket := BlueprintOf(input.env, input.entrants);
    Scheduled(input);
    var results, stopped := PlayInTurn(input, bracket.matches);
    if stopped.Some? {
      ghost var n :| 0 <= n < |bracket.matches| && HaltsAt(input, bracket.matches, n, stopped.value);
      HaltMeans(input, bracket.matches, n, stopped.value);
      return stopped.value;
    }
    AllWonVerdicts(input, bracket.matches, results);
    r := Finish(input, results);
  }

  method Finish(input: Input, results: Results) returns (r: Outcome)
    requires Accepted(input)
    requires var ms := BlueprintOf(input.env, input.entrants).matches; ResultsAfter(input, ms, |ms|) == Some(results)
    ensures r.RankingReady? && r.results == results
    ensures Advance(BlueprintOf(input.env, input.entrants), results) == Success(Complete(r.ranking))
  {
    var bracket := BlueprintOf(input.env, input.entrants);
    Scheduled(input);
    AllDecided(input, bracket.matches, results);
    AdvanceIsSafe(input.env, input.entrants, results);
    var progress := AdvanceBracket(bracket, results);
    assert progress.Success? && progress.value.Complete?;  // orchestrator.ts:130 never throws
    r := RankingReady(progress.value.ranking, results);
  }

  lemma Scheduled(input: Input)
    requires Accepted(input)
    ensures var ms := BlueprintOf(input.env, input.entrants).matches;
            Sorted(ms) && EntrantsIn(ms, input.entrants)
  {
    BracketPlayable(input.env, input.entrants);
    WellFormedIsSorted(BlueprintOf(input.env, input.entrants).matches);
    BracketRegular(input.env, input.entrants);
  }

  lemma AllDecided(input: Input, ms: seq<Match>, results: Results)
    requires input.topics != [] && UniqueIds(ms) && ResultsAfter(input, ms, |ms|) == Some(results)
    ensures results.Keys <= IdSet(ms) && Decided(ms, results)
  {
    ResultsDecide(input, ms, |ms|);
    assert ms[..|ms|] == ms;
  }

  /** Results that are right for the matches before `start` resolve the sides of match n, when
      n is in the group that starts there; the sides are the ones of the sequential run. */
  lemma SidesKnown(input: Input, ms: seq<Match>, start: nat, n: nat, results: Results)
    requires input.topics != [] && Sorted(ms) && EntrantsIn(ms, input.entrants) && start <= n < |ms|
    requires forall k :: start <= k <= n ==> SameGroup(ms[k], ms[n])
    requires ResultsAfter(input, ms, start).Some?
    requires AgreeBefore(ms, start, results, ResultsAfter(input, ms, start).value)
    ensures ReadyAfter(ms[..start], ms[n]) && Known(ms[..n], ms[n].slotA) && Known(ms[..n], ms[n].slotB)
    ensures var a, b := ResolveSlot(ms, n, results, ms[n].slotA), ResolveSlot(ms, n, results, ms[n].slotB);
            && a.Some? && b.Some? && a.value in input.entrants && b.value in input.entrants
            && a == Walk(ms[..start], ResultsAfter(input, ms, start).value, ms[n].slotA)
            && b == Walk(ms[..start], ResultsAfter(input, ms, start).value, ms[n].slotB)
            && (ResultsAfter(input, ms, n).Some? ==>
              Sides(ms, n, ResultsAfter(input, ms, n).value) == Some((a.value, b.value)))
  {
    assert ReadyAfter(ms[..start], ms[n]);
    assert ms[n] in ms;
    SideKnown(input, ms, start, n, results, ms[n].slotA);
    SideKnown(input, ms, start, n, results, ms[n].slotB);
  }

  ghost predicate AgreeBefore(ms: seq<Match>, n: nat, a: Results, b: Results)
    requires n <= |ms|
  {
    forall i :: 0 <= i < n ==> ms[i].id in a && ms[i].id in b && a[ms[i].id] == b[ms[i].id]
  }

  lemma {:induction false} WalkAgrees(ms: seq<Match>, n: nat, a: Results, b: Results, slot: Slot)
    requires n <= |ms| && AgreeBefore(ms, n, a, b)
    ensures Walk(ms[..n], a, slot) == Walk(ms[..n], b, slot)
    decreases n
  {
    if slot.kind != Entrant && n > 0 {
      var m := ms[n - 1];
      assert ms[..n][..n - 1] == ms[..n - 1];
      if m.id != slot.id {
        WalkAgrees(ms, n - 1, a, b, slot);
      } else if Decisive(a, m.id) {
        WalkAgrees(ms, n - 1, a, b, Follow(m, a[m.id], slot.kind));
      }
    }
  }

  /** A slot known before `start` means the same at every later point. */
  lemma WalkEarly(ms: seq<Match>, start: nat, n: nat, results: Results, early: Results, slot: Slot)
    requires UniqueIds(ms) && start <= n <= |ms| && Known(ms[..start], slot) && AgreeBefore(ms, start, results, early)
    ensures Known(ms[..n], slot)
    ensures Walk(ms[..n], results, slot) == Walk(ms[..start], early, slot)
  {
    assert ms[..n][..start] == ms[..start];
    assert ms[..n] == ms[..start] + ms[start..n];
    KnownLonger(ms[..start], ms[start..n], slot);
    WalkPrefix(ms[..n], start, results, slot);
    WalkAgrees(ms, start, results, early, slot);
  }

  lemma EarlyDecided(input: Input, ms: seq<Match>, start: nat, slot: Slot)
    requires input.topics != [] && Sorted(ms) && EntrantsIn(ms, input.entrants) && start <= |ms|
    requires Known(ms[..start], slot) && EntrantIn(slot, input.entrants)
    requires ResultsAfter(input, ms, start).Some?
    ensures var w := Walk(ms[..start], ResultsAfter(input, ms, start).value, slot); w.Some? && w.value in input.entrants
  {
    ResultsDecide(input, ms, start);
    assert forall i :: 0 <= i < start ==> ms[..start][..i] == ms[..i];
    WalkDecided(ms[..start], ResultsAfter(input, ms, start).value, slot, input.entrants);
  }

  lemma SideKnown(input: Input, ms: seq<Match>, start: nat, n: nat, results: Results, slot: Slot)
    requires input.topics != [] && Sorted(ms) && EntrantsIn(ms, input.entrants) && start <= n <= |ms|
    requires Known(ms[..start], slot) && EntrantIn(slot, input.entrants)
    requires ResultsAfter(input, ms, start).Some?
    requires AgreeBefore(ms, start, results, ResultsAfter(input, ms, start).value)
    ensures Known(ms[..n], slot)
    ensures var a := ResolveSlot(ms, n, results, slot);
            && a.Some? && a.value in input.entrants
            && a == Walk(ms[..start], ResultsAfter(input, ms, start).value, slot)
            && (ResultsAfter(input, ms, n).Some? ==> Walk(ms[..n], ResultsAfter(input, ms, n).value, slot) == a)
  {
    var early := ResultsAfter(input, ms, start).value;
    WalkEarly(ms, start, n, results, early, slot);
    EarlyDecided(input, ms, start, slot);
    ResolversAgree(ms, n, results, slot);
    if ResultsAfter(input, ms, n).Some? {
      ResultsGrow(input, ms, start, n);
      WalkEarly(ms, start, n, ResultsAfter(input, ms, n).value, early, slot);
    }
  }

  // ---------- the concurrent runner ----------

  method RunCaught(input: Input, m: Match, ordinal: nat, a: Digest, b: Digest) returns (e: Execution)
    requires input.topics != []
    ensures e == Caught(input, m, ordinal, 1, a, b)
  {
    var number := 1;
    while number <= input.retryCap
      invariant 1 <= number <= input.retryCap + 1
      invariant Caught(input, m, ordinal, 1, a, b) == Caught(input, m, ordinal, number, a, b)
    {
      if input.expired(m.id, number) { return RefundRequired(TournamentExpired); }
      var c := AttemptContext(input, m, ordinal, number, a, b);
      var step := Attempt(input, c);
      if step == Some(InferenceRejected) { return RecoveryRequired(c.attemptId, "PROVIDER_ERROR"); }
      if step.Some? { return step.value; }
      number := number + 1;
    }
    return RefundRequired(RetryExhausted);
  }

  function GroupEnd(ms: seq<Match>, start: nat, end: nat): (e: nat)
    requires start < end <= |ms| && OneGroup(ms, start, end)
    ensures end <= e <= |ms| && OneGroup(ms, start, e) && (e < |ms| ==> !SameGroup(ms[e], ms[start]))
    decreases |ms| - end
  {
    if end < |ms| && SameGroup(ms[end], ms[start]) then GroupEnd(ms, start, end + 1) else end
  }

  /** What the concurrent runner makes of match n of the group that begins at `start`: its sides are resolved
      from the results before the group. */
  function GroupExecution(input: Input, ms: seq<Match>, start: nat, n: nat, before: Results): Execution
    requires input.topics != [] && start <= n < |ms|
  {
    var a, b := Walk(ms[..start], before, ms[n].slotA), Walk(ms[..start], before, ms[n].slotB);
    if a.Some? && b.Some? then Caught(input, ms[n], n, 1, a.value, b.value) else RefundRequired(RetryExhausted)
  }

  /** One match of a batch. */
  method RunOne(input: Input, ms: seq<Match>, start: nat, end: nat, n: nat, results: Results) returns (e: Execution)
    requires input.topics != [] && Sorted(ms) && EntrantsIn(ms, input.entrants)
    requires start <= n < end <= |ms| && OneGroup(ms, start, end)
    requires Grounded(input, ms, start, results)
    ensures e == GroupExecution(input, ms, start, n, ResultsAfter(input, ms, start).value)
  {
    BatchMatch(input, ms, start, end, n, results);
    var sideA, sideB := ResolveSlot(ms, n, results, ms[n].slotA), ResolveSlot(ms, n, results, ms[n].slotB);
    assert sideA.Some? && sideB.Some?;  // orchestrator.ts:152 never throws
    assert sideA.value in input.entrants && sideB.value in input.entrants;  // nor does orchestrator.ts:154
    e := RunCaught(input, ms[n], n, sideA.value, sideB.value);
  }

  /** The executions of one batch. */
  method RunBatch(input: Input, ms: seq<Match>, start: nat, offset: nat, end: nat, results: Results)
      returns (executions: seq<Execution>)
    requires input.topics != [] && Sorted(ms) && EntrantsIn(ms, input.entrants)
    requires start <= offset <= end <= |ms| && OneGroup(ms, start, end)
    requires Grounded(input, ms, start, results)
    ensures executions == Plan(input, ms, start, offset, end, ResultsAfter(input, ms, start).value)
  {
    executions := [];
    ghost var before := ResultsAfter(input, ms, start).value;
    while offset + |executions| < end
      invariant offset + |executions| <= end
      invariant forall i :: 0 <= i < |executions| ==>
        executions[i] == GroupExecution(input, ms, start, offset + i, before)
      decreases end - |executions|
    {
      var e := RunOne(input, ms, start, end, offset + |executions|, results);
      executions := executions + [e];
    }
  }

  ghost predicate OneGroup(ms: seq<Match>, start: nat, end: nat)
    requires start <= end <= |ms|
  {
    forall k :: start <= k < end ==> SameGroup(ms[k], ms[start])
  }

  /** The results are right for the matches before the group. */
  ghost predicate Grounded(input: Input, ms: seq<Match>, start: nat, results: Results)
    requires input.topics != [] && start <= |ms|
  {
    ResultsAfter(input, ms, start).Some? && AgreeBefore(ms, start, results, ResultsAfter(input, ms, start).value)
  }

  lemma BatchMatch(input: Input, ms: seq<Match>, start: nat, end: nat, n: nat, results: Results)
    requires input.topics != [] && Sorted(ms) && EntrantsIn(ms, input.entrants)
    requires start <= n < end <= |ms| && OneGroup(ms, start, end) && Grounded(input, ms, start, results)
    ensures Known(ms[..n], ms[n].slotA) && Known(ms[..n], ms[n].slotB)
    ensures var a, b := ResolveSlot(ms, n, results, ms[n].slotA), ResolveSlot(ms, n, results, ms[n].slotB);
            && a.Some? && b.Some? && a.value in input.entrants && b.value in input.entrants
            && GroupExecution(input, ms, start, n, ResultsAfter(input, ms, start).value)
              == Caught(input, ms[n], n, 1, a.value, b.value)
            && IsExecution(input, ms, n, Caught(input, ms[n], n, 1, a.value, b.value))
  {
    SidesKnown(input, ms, start, n, results);
    var a, b := ResolveSlot(ms, n, results, ms[n].slotA).value, ResolveSlot(ms, n, results, ms[n].slotB).value;
    CaughtExecutes(input, ms, n, a, b);
  }

  lemma CaughtExecutes(input: Input, ms: seq<Match>, n: nat, a: Digest, b: Digest)
    requires input.topics != [] && n < |ms|
    requires ResultsAfter(input, ms, n).Some? ==> Sides(ms, n, ResultsAfter(input, ms, n).value) == Some((a, b))
    ensures IsExecution(input, ms, n, Caught(input, ms[n], n, 1, a, b))
  {
    CaughtWinsAlike(input, ms[n], n, 1, a, b);
  }

  /** What the executions of a group add up to: the wins, the blocked matches in order, and the first refund
      called for. */
  datatype Gathered = Gathered(results: Results, blocked: seq<(Digest, Execution)>, refund: Option<RefundReason>)

  function Add(g: Gathered, id: Digest, e: Execution): Gathered {
    if g.refund.Some? then g
    else if e.Win? then g.(results := g.results[id := e.result])
    else if e.RefundRequired? then g.(refund := Some(e.why))
    else g.(blocked := g.blocked + [(id, e)])
  }

  /** The executions of a batch added in order. */
  function Collected(g: Gathered, ms: seq<Match>, n: nat, executions: seq<Execution>): Gathered
    requires n + |executions| <= |ms|
    decreases |executions|
  {
    if executions == [] then g else Collected(Add(g, ms[n].id, executions[0]), ms, n + 1, executions[1..])
  }

  lemma {:induction false} RefundedStays(g: Gathered, ms: seq<Match>, n: nat, executions: seq<Execution>)
    requires n + |executions| <= |ms| && g.refund.Some?
    ensures Collected(g, ms, n, executions) == g
    decreases |executions|
  {
    if executions != [] { RefundedStays(g, ms, n + 1, executions[1..]); }
  }

  lemma {:induction false} CollectedConcat(g: Gathered, ms: seq<Match>, n: nat, a: seq<Execution>, b: seq<Execution>)
    requires n + |a| + |b| <= |ms|
    ensures Collected(g, ms, n, a + b) == Collected(Collected(g, ms, n, a), ms, n + |a|, b)
    decreases |a|
  {
    if a == [] {
      assert a + b == b;
    } else {
      assert (a + b)[1..] == a[1..] + b;
      CollectedConcat(Add(g, ms[n].id, a[0]), ms, n + 1, a[1..], b);
    }
  }

  /** The executions of matches `from` to `to` of the group that begins at `start`. */
  function Plan(input: Input, ms: seq<Match>, start: nat, from: nat, to: nat, before: Results): (plan: seq<Execution>)
    requires input.topics != [] && start <= from <= to <= |ms|
    ensures |plan| == to - from
    ensures forall i :: 0 <= i < |plan| ==> plan[i] == GroupExecution(input, ms, start, from + i, before)
  {
    seq(to - from, i requires 0 <= i < to - from => GroupExecution(input, ms, start, from + i, before))
  }

  lemma PlanSplit(input: Input, ms: seq<Match>, start: nat, from: nat, mid: nat, to: nat, before: Results)
    requires input.topics != [] && start <= from <= mid <= to <= |ms|
    ensures Plan(input, ms, start, from, to, before) == Plan(input, ms, start, from, mid, before)
      + Plan(input, ms, start, mid, to, before)
  {
    var whole, a, b := Plan(input, ms, start, from, to, before), Plan(input, ms, start, from, mid, before),
      Plan(input, ms, start, mid, to, before);
    forall i | 0 <= i < |whole| ensures whole[i] == (a + b)[i] {
      if i >= |a| { assert from + i == mid + (i - |a|); }
    }
  }

  lemma PlanTail(input: Input, ms: seq<Match>, start: nat, n: nat, to: nat, before: Results)
    requires input.topics != [] && start <= n < to <= |ms|
    ensures Plan(input, ms, start, n, to, before)[1..] == Plan(input, ms, start, n + 1, to, before)
  {
    var plan, tail := Plan(input, ms, start, n, to, before), Plan(input, ms, start, n + 1, to, before);
    forall i | 0 <= i < |tail| ensures plan[1..][i] == tail[i] { assert n + (i + 1) == n + 1 + i; }
  }

  function Gather(input: Input, ms: seq<Match>, start: nat, n: nat, before: Results): Gathered
    requires input.topics != [] && start <= n <= |ms|
  {
    Collected(Gathered(before, [], None), ms, start, Plan(input, ms, start, start, n, before))
  }

  /** Collecting a group's executions batch by batch gathers them all. */
  lemma GatherOn(input: Input, ms: seq<Match>, start: nat, n: nat, k: nat, before: Results)
    requires input.topics != [] && start <= n <= k <= |ms|
    ensures Gather(input, ms, start, k, before)
      == Collected(Gather(input, ms, start, n, before), ms, n, Plan(input, ms, start, n, k, before))
  {
    PlanSplit(input, ms, start, start, n, k, before);
    CollectedConcat(Gathered(before, [], None), ms, start, Plan(input, ms, start, start, n, before),
      Plan(input, ms, start, n, k, before));
  }

  lemma RefundStays(input: Input, ms: seq<Match>, start: nat, n: nat, k: nat, before: Results)
    requires input.topics != [] && start <= n <= k <= |ms| && Gather(input, ms, start, n, before).refund.Some?
    ensures Gather(input, ms, start, k, before).refund == Gather(input, ms, start, n, before).refund
  {
    GatherOn(input, ms, start, n, k, before);
    RefundedStays(Gather(input, ms, start, n, before), ms, n, Plan(input, ms, start, n, k, before));
  }

  /** Group by group: what is left of the tournament gives results, or stops. No batch size enters. */
  function InGroups(input: Input, ms: seq<Match>, start: nat, before: Results): (Results, Option<Outcome>)
    requires input.topics != [] && start <= |ms|
    decreases |ms| - start
  {
    if start == |ms| then (before, None)
    else
      var end := GroupEnd(ms, start, start + 1);
      var g := Gather(input, ms, start, end, before);
      if g.refund.Some? || g.blocked != [] then (g.results, Some(Stop(g.refund, g.blocked, g.results)))
      else InGroups(input, ms, end, g.results)
  }

  /** An execution of match n that wins as the sequential run would, when that gets there. */
  ghost predicate IsExecution(input: Input, ms: seq<Match>, n: nat, e: Execution)
    requires input.topics != [] && n < |ms|
  {
    ResultsAfter(input, ms, n).Some? ==>
      if e.Win? then ResultsAfter(input, ms, n + 1) == Some(ResultsAfter(input, ms, n).value[ms[n].id := e.result])
      else ResultsAfter(input, ms, n + 1).None?
  }

  /** `results` is what the sequential run has after n matches, or some match before n is not won
      and then at least the matches before the group are right. */
  ghost predicate Tracks(input: Input, ms: seq<Match>, start: nat, n: nat, results: Results, clear: bool)
    requires input.topics != [] && start <= n <= |ms|
  {
    && Grounded(input, ms, start, results)
    && (if clear then ResultsAfter(input, ms, n) == Some(results) else ResultsAfter(input, ms, n).None?)
  }

  lemma TrackStep(input: Input, ms: seq<Match>, start: nat, n: nat, results: Results, clear: bool, e: Execution)
    requires input.topics != [] && UniqueIds(ms) && start <= n < |ms|
    requires Tracks(input, ms, start, n, results, clear) && IsExecution(input, ms, n, e)
    ensures Tracks(input, ms, start, n + 1, if e.Win? then results[ms[n].id := e.result] else results, clear && e.Win?)
  {
    if !clear { LostStaysLost(input, ms, n, n + 1); }
  }

  /** For every batch size the concurrent runner keeps the sequential runner's promise, and when it stops early
      it stops in the same way for every batch size. */
  method RunConcurrent(input: Input, limit: nat) returns (r: Outcome)
    requires Accepted(input) && limit >= 1
    ensures var b := BlueprintOf(input.env, input.entrants); var results := ResultsAfter(input, b.matches, |b.matches|);
            && (r.RankingReady? <==> !input.late && results.Some?)
            && (r.RankingReady? ==> r.results == results.value
                                    && Advance(b, results.value) == Success(Complete(r.ranking)))
    ensures !input.late && !r.RankingReady? ==>
      Some(r) == InGroups(input, BlueprintOf(input.env, input.entrants).matches, 0, map[]).1
    ensures r.RankingReady? ==> AllWon(input, BlueprintOf(input.env, input.entrants).matches, r.results)
    ensures !input.late && !r.RankingReady? ==> StoppedByGroup(input, BlueprintOf(input.env, input.entrants).matches, r)
    ensures input.late ==> r == Refund(TournamentExpired)
  {
    if input.late { return Refund(TournamentExpired); }
    var bracket := BlueprintOf(input.env, input.entrants);
    Scheduled(input);
    var results, stopped := PlayInGroups(input, bracket.matches, limit);
    if stopped.Some? {
      ghost var first, end := StopMeans(input, bracket.matches, 0, map[], stopped.value);
      return stopped.value;
    }
    AllWonVerdicts(input, bracket.matches, results);
    r := Finish(input, results);
  }

  function Stop(refund: Option<RefundReason>, blocked: seq<(Digest, Execution)>, after: Results): (o: Outcome)
    requires refund.Some? || blocked != []
    ensures !o.RankingReady?
  {
    if refund.Some? then Refund(refund.value)
    else Blocked(Select(blocked).0, Select(blocked).1, after, Active(blocked))
  }

  function Active(blocked: seq<(Digest, Execution)>): map<Digest, Execution> {
    if blocked == [] then map[]
    else Active(blocked[..|blocked| - 1])[blocked[|blocked| - 1].0 := blocked[|blocked| - 1].1]
  }

  /** The group loop of lines 143-189. */
  method PlayInGroups(input: Input, ms: seq<Match>, limit: nat) returns (results: Results, stopped: Option<Outcome>)
    requires input.topics != [] && Sorted(ms) && EntrantsIn(ms, input.entrants) && limit >= 1
    ensures stopped.None? ==> ResultsAfter(input, ms, |ms|) == Some(results)
    ensures stopped.Some? ==> ResultsAfter(input, ms, |ms|).None? && !stopped.value.RankingReady?
    ensures stopped == InGroups(input, ms, 0, map[]).1
  {
    results, stopped := map[], None;
    var start := 0;
    ghost var all := InGroups(input, ms, 0, map[]).1;
    while start < |ms|
      invariant 0 <= start <= |ms| && stopped.None?
      invariant ResultsAfter(input, ms, start) == Some(results)
      invariant InGroups(input, ms, start, results).1 == all
    {
      start, results, stopped := PlayGroup(input, ms, start, limit, results);
      if stopped.Some? { return; }
    }
  }

  /** One pass of the group loop: the matches of one stage and round, and what becomes of them. */
  method PlayGroup(input: Input, ms: seq<Match>, start: nat, limit: nat, before: Results)
    returns (end: nat, results: Results, stopped: Option<Outcome>)
    requires input.topics != [] && Sorted(ms) && EntrantsIn(ms, input.entrants) && limit >= 1 && start < |ms|
    requires ResultsAfter(input, ms, start) == Some(before)
    ensures start < end <= |ms|
    ensures stopped.None? ==> ResultsAfter(input, ms, end) == Some(results)
    ensures stopped.None? ==> InGroups(input, ms, end, results).1 == InGroups(input, ms, start, before).1
    ensures stopped.Some? ==> ResultsAfter(input, ms, |ms|).None? && !stopped.value.RankingReady?
    ensures stopped.Some? ==> stopped == InGroups(input, ms, start, before).1
  {
    end := GroupEnd(ms, start, start + 1);
    var after, blocked, refund := RunGroup(input, ms, start, end, limit, before);
    results, stopped := after, None;
    if refund.Some? || blocked != [] {
      LostStaysLost(input, ms, end, |ms|);
      stopped := Some(Stop(refund, blocked, after));
    }
  }

  /** The first recovery, else the first blocked match. */
  function Select(blocked: seq<(Digest, Execution)>): (Digest, Execution)
    requires blocked != []
  {
    FirstRecovery(blocked, blocked[0])
  }

  function FirstRecovery(blocked: seq<(Digest, Execution)>, other: (Digest, Execution)): (Digest, Execution) {
    if blocked == [] then other else if blocked[0].1.RecoveryRequired? then blocked[0]
    else FirstRecovery(blocked[1..], other)
  }

  method RunGroup(input: Input, ms: seq<Match>, start: nat, end: nat, limit: nat, before: Results)
    returns (results: Results, blocked: seq<(Digest, Execution)>, refund: Option<RefundReason>)
    requires input.topics != [] && Sorted(ms) && EntrantsIn(ms, input.entrants) && limit >= 1
    requires start < end <= |ms| && OneGroup(ms, start, end)
    requires ResultsAfter(input, ms, start) == Some(before)
    ensures refund.Some? || blocked != [] ==> ResultsAfter(input, ms, end).None?
    ensures refund.None? && blocked == [] ==> ResultsAfter(input, ms, end) == Some(results)
    ensures refund == Gather(input, ms, start, end, before).refund
    ensures refund.None? ==> Gathered(results, blocked, None) == Gather(input, ms, start, end, before)
  {
    results, blocked, refund := before, [], None;
    GroupBegins(input, ms, start, before);
    var offset := start;
    while offset < end
      invariant start <= offset <= end && refund.None?
      invariant SoFar(input, ms, start, offset, before, Gathered(results, blocked, None))
    {
      offset, results, blocked, refund := PlayBatch(input, ms, start, offset, end, limit, before, results, blocked);
      if refund.Some? { return; }
    }
    GroupEnds(input, ms, start, end, before, results, blocked);
  }

  lemma GroupEnds(input: Input, ms: seq<Match>, start: nat, end: nat, before: Results, results: Results,
      blocked: seq<(Digest, Execution)>)
    requires input.topics != [] && start <= end <= |ms|
    requires SoFar(input, ms, start, end, before, Gathered(results, blocked, None))
    ensures blocked != [] ==> ResultsAfter(input, ms, end).None?
    ensures blocked == [] ==> ResultsAfter(input, ms, end) == Some(results)
    ensures Gather(input, ms, start, end, before) == Gathered(results, blocked, None)
  {
  }

  /** What the batches up to match n have gathered. */
  ghost predicate SoFar(input: Input, ms: seq<Match>, start: nat, n: nat, before: Results, g: Gathered)
    requires input.topics != [] && start <= n <= |ms|
  {
    OnTrack(input, ms, start, n, g) && g == Gather(input, ms, start, n, before)
  }

  lemma GroupBegins(input: Input, ms: seq<Match>, start: nat, before: Results)
    requires input.topics != [] && UniqueIds(ms) && start <= |ms| && ResultsAfter(input, ms, start) == Some(before)
    ensures SoFar(input, ms, start, start, before, Gathered(before, [], None))
  {
    ResultsGrow(input, ms, start, start);
  }

  /** The next batch of at most `limit` matches of a group. */
  method PlayBatch(input: Input, ms: seq<Match>, start: nat, offset: nat, end: nat, limit: nat, ghost before: Results,
      results0: Results, blocked0: seq<(Digest, Execution)>)
    returns (stop: nat, results: Results, blocked: seq<(Digest, Execution)>, refund: Option<RefundReason>)
    requires input.topics != [] && Sorted(ms) && EntrantsIn(ms, input.entrants) && limit >= 1
    requires start <= offset < end <= |ms| && OneGroup(ms, start, end)
    requires ResultsAfter(input, ms, start) == Some(before)
    requires SoFar(input, ms, start, offset, before, Gathered(results0, blocked0, None))
    ensures offset < stop <= end
    ensures refund.Some? ==>
      ResultsAfter(input, ms, end).None? && refund == Gather(input, ms, start, end, before).refund
    ensures refund.None? ==> SoFar(input, ms, start, stop, before, Gathered(results, blocked, None))
  {
    stop := if offset + limit < end then offset + limit else end;
    var executions := RunBatch(input, ms, start, offset, stop, results0);
    results, blocked, refund := Collect(ms, offset, executions, results0, blocked0);
    BatchGathers(input, ms, start, offset, stop, before, executions, Gathered(results0, blocked0, None));
    if refund.Some? {
      LostStaysLost(input, ms, stop, end);
      RefundStays(input, ms, start, stop, end, before);
    }
  }

  /** The executions of a batch continue what the group has gathered. */
  lemma BatchGathers(input: Input, ms: seq<Match>, start: nat, offset: nat, stop: nat, before: Results,
                     executions: seq<Execution>, g: Gathered)
    requires input.topics != [] && Sorted(ms) && EntrantsIn(ms, input.entrants)
    requires start <= offset <= stop <= |ms| && OneGroup(ms, start, stop) && Grounded(input, ms, start, g.results)
    requires ResultsAfter(input, ms, start) == Some(before) && g.refund.None? && OnTrack(input, ms, start, offset, g)
    requires executions == Plan(input, ms, start, offset, stop, before) && g == Gather(input, ms, start, offset, before)
    ensures OnTrack(input, ms, start, stop, Collected(g, ms, offset, executions))
    ensures Collected(g, ms, offset, executions) == Gather(input, ms, start, stop, before)
  {
    BatchTracks(input, ms, start, offset, stop, before, executions, g.results, g);
    GatherOn(input, ms, start, offset, stop, before);
  }

  lemma ExecutesAt(input: Input, ms: seq<Match>, start: nat, stop: nat, n: nat, before: Results, results: Results,
                   e: Execution)
    requires input.topics != [] && Sorted(ms) && EntrantsIn(ms, input.entrants)
    requires start <= n < stop <= |ms| && OneGroup(ms, start, stop) && Grounded(input, ms, start, results)
    requires ResultsAfter(input, ms, start) == Some(before) && e == GroupExecution(input, ms, start, n, before)
    ensures IsExecution(input, ms, n, e)
  {
    BatchMatch(input, ms, start, stop, n, results);
  }

  /** The loop over the executions of a batch, lines 177-181. */
  method Collect(ms: seq<Match>, offset: nat, executions: seq<Execution>, results0: Results,
      blocked0: seq<(Digest, Execution)>)
    returns (results: Results, blocked: seq<(Digest, Execution)>, refund: Option<RefundReason>)
    requires offset + |executions| <= |ms|
    ensures Gathered(results, blocked, refund) == Collected(Gathered(results0, blocked0, None), ms, offset, executions)
  {
    results, blocked, refund := results0, blocked0, None;
    var i := 0;
    ghost var all := Collected(Gathered(results0, blocked0, None), ms, offset, executions);
    while i < |executions|
      invariant 0 <= i <= |executions| && refund.None?
      invariant Collected(Gathered(results, blocked, None), ms, offset + i, executions[i..]) == all
    {
      var e := executions[i];
      assert executions[i..][1..] == executions[i + 1..];
      if e.Win? {
        results := results[ms[offset + i].id := e.result];
      } else if e.RefundRequired? {
        RefundedStays(Gathered(results, blocked, Some(e.why)), ms, offset + i + 1, executions[i + 1..]);
        refund := Some(e.why);
        return;
      } else {
        blocked := blocked + [(ms[offset + i].id, e)];
      }
      i := i + 1;
    }
  }

  /** `g` is on the sequential run's track, or shows that this has ended. */
  ghost predicate OnTrack(input: Input, ms: seq<Match>, start: nat, n: nat, g: Gathered)
    requires input.topics != [] && start <= n <= |ms|
  {
    if g.refund.Some? then ResultsAfter(input, ms, n).None? else Tracks(input, ms, start, n, g.results, g.blocked == [])
  }

  lemma AddTracks(input: Input, ms: seq<Match>, start: nat, n: nat, g: Gathered, e: Execution)
    requires input.topics != [] && UniqueIds(ms) && start <= n < |ms| && OnTrack(input, ms, start, n, g)
      && IsExecution(input, ms, n, e)
    ensures OnTrack(input, ms, start, n + 1, Add(g, ms[n].id, e))
  {
    if g.refund.Some? {
      LostStaysLost(input, ms, n, n + 1);
    } else {
      TrackStep(input, ms, start, n, g.results, g.blocked == [], e);
    }
  }

  /** A batch keeps on track; its sides are resolved from the results it begins with. */
  lemma {:induction false} BatchTracks(input: Input, ms: seq<Match>, start: nat, n: nat, stop: nat, before: Results,
      executions: seq<Execution>, results: Results, g: Gathered)
    requires input.topics != [] && Sorted(ms) && EntrantsIn(ms, input.entrants)
    requires start <= n <= stop <= |ms| && OneGroup(ms, start, stop) && Grounded(input, ms, start, results)
    requires ResultsAfter(input, ms, start) == Some(before) && OnTrack(input, ms, start, n, g)
    requires executions == Plan(input, ms, start, n, stop, before)
    ensures OnTrack(input, ms, start, stop, Collected(g, ms, n, executions))
    decreases stop - n
  {
    if n < stop {
      ExecutesAt(input, ms, start, stop, n, before, results, executions[0]);
      AddTracks(input, ms, start, n, g, executions[0]);
      PlanTail(input, ms, start, n, stop, before);
      BatchTracks(input, ms, start, n + 1, stop, before, executions[1..], results, Add(g, ms[n].id, executions[0]));
    }
  }

  // ---------- how the two runners stop ----------

  /** What the concurrent runner answers when the sequential one halts at match n with `o`: the same refund; or
      else some refund of the same group, or a recovery, which is that of match n if the sequential runner asks
      for one there; or a wait for the judge of match n. */
  ghost predicate StopsAlike(o: Outcome, id: Digest, c: Outcome) {
    match o
    case RankingReady(_, _) => false
    case Refund(_) => c == o
    case Rejected => c.Refund? || (c.Blocked? && c.matchId == id && c.execution.RecoveryRequired?)
    case Blocked(_, e, _, _) =>
      c.Refund? || (c.Blocked? && ((c.matchId == id && c.execution == e)
                                   || (e.WaitingForJudge? && c.execution.RecoveryRequired?)))
  }

  lemma GatherTracks(input: Input, ms: seq<Match>, start: nat, n: nat, before: Results)
    requires input.topics != [] && Sorted(ms) && EntrantsIn(ms, input.entrants)
    requires start <= n <= |ms| && OneGroup(ms, start, n) && ResultsAfter(input, ms, start) == Some(before)
    ensures OnTrack(input, ms, start, n, Gather(input, ms, start, n, before))
  {
    GroupBegins(input, ms, start, before);
    var plan := Plan(input, ms, start, start, n, before);
    BatchTracks(input, ms, start, start, n, before, plan, before, Gathered(before, [], None));
  }

  /** A group whose matches are all won gathers nothing but its wins. */
  lemma WonGroup(input: Input, ms: seq<Match>, start: nat, n: nat, before: Results)
    requires input.topics != [] && Sorted(ms) && EntrantsIn(ms, input.entrants)
    requires start <= n <= |ms| && OneGroup(ms, start, n) && ResultsAfter(input, ms, start) == Some(before)
    requires ResultsAfter(input, ms, n).Some?
    ensures Gather(input, ms, start, n, before) == Gathered(ResultsAfter(input, ms, n).value, [], None)
  {
    GatherTracks(input, ms, start, n, before);
  }

  lemma GatherNext(input: Input, ms: seq<Match>, start: nat, n: nat, before: Results)
    requires input.topics != [] && start <= n < |ms|
    ensures Gather(input, ms, start, n + 1, before)
      == Add(Gather(input, ms, start, n, before), ms[n].id, GroupExecution(input, ms, start, n, before))
  {
    GatherOn(input, ms, start, n, n + 1, before);
    var plan := Plan(input, ms, start, n, n + 1, before);
    assert plan == [GroupExecution(input, ms, start, n, before)];
    assert plan[1..] == [];
  }

  lemma {:induction false} BlockedStays(g: Gathered, ms: seq<Match>, n: nat, executions: seq<Execution>)
    requires n + |executions| <= |ms| && g.refund.None?
    ensures Collected(g, ms, n, executions).refund.Some? || g.blocked <= Collected(g, ms, n, executions).blocked
    decreases |executions|
  {
    if executions != [] {
      var next := Add(g, ms[n].id, executions[0]);
      if next.refund.Some? {
        RefundedStays(next, ms, n + 1, executions[1..]);
      } else {
        BlockedStays(next, ms, n + 1, executions[1..]);
      }
    }
  }

  lemma {:induction false} RecoveryIsFirst(blocked: seq<(Digest, Execution)>, other: (Digest, Execution))
    ensures var r := FirstRecovery(blocked, other); r == other || r.1.RecoveryRequired?
  {
    if blocked != [] { RecoveryIsFirst(blocked[1..], other); }
  }

  /** The concurrent runner's execution of a match at which the sequential one halts with `s`. */
  predicate AsCaught(s: Execution, c: Execution) {
    !s.Win? && if s == InferenceRejected then c.RecoveryRequired? && c.reason == "PROVIDER_ERROR" else c == s
  }

  /** The execution at which the sequential runner halts, as the concurrent runner has it. */
  lemma HaltingExecution(input: Input, ms: seq<Match>, start: nat, n: nat, before: Results, o: Outcome)
      returns (s: Execution, c: Execution)
    requires input.topics != [] && Sorted(ms) && EntrantsIn(ms, input.entrants)
    requires start <= n < |ms| && OneGroup(ms, start, n + 1) && ResultsAfter(input, ms, start) == Some(before)
    requires HaltsAt(input, ms, n, o)
    ensures c == GroupExecution(input, ms, start, n, before) && AsCaught(s, c)
    ensures o == Halt(s, ms[n].id, ResultsAfter(input, ms, n).value)
  {
    GroupBegins(input, ms, start, before);
    SidesKnown(input, ms, start, n, before);
    var sides := Sides(ms, n, ResultsAfter(input, ms, n).value).value;
    CaughtWinsAlike(input, ms[n], n, 1, sides.0, sides.1);
    s := AttemptsFrom(input, ms[n], n, 1, sides.0, sides.1);
    c := GroupExecution(input, ms, start, n, before);
  }

  /** What a group has gathered once its match `id` has not been won. */
  predicate Halted(g: Gathered, id: Digest, c: Execution) {
    if c.RefundRequired? then g.refund == Some(c.why)
    else g.refund.Some? || (g.blocked != [] && g.blocked[0] == (id, c))
  }

  lemma HaltFits(s: Execution, c: Execution, id: Digest, results: Results, g: Gathered)
    requires AsCaught(s, c) && Halted(g, id, c)
    ensures StopsAlike(Halt(s, id, results), id, Stop(g.refund, g.blocked, g.results))
  {
    if g.refund.None? { RecoveryIsFirst(g.blocked, g.blocked[0]); }
  }

  lemma StaysHalted(here: Gathered, id: Digest, c: Execution, ms: seq<Match>, n: nat, rest: seq<Execution>)
    requires n + |rest| <= |ms| && Halted(here, id, c)
    ensures Halted(Collected(here, ms, n, rest), id, c)
  {
    if here.refund.Some? { RefundedStays(here, ms, n, rest); } else { BlockedStays(here, ms, n, rest); }
  }

  lemma HaltsHere(input: Input, ms: seq<Match>, start: nat, n: nat, before: Results, c: Execution)
    requires input.topics != [] && Sorted(ms) && EntrantsIn(ms, input.entrants)
    requires start <= n < |ms| && OneGroup(ms, start, n) && ResultsAfter(input, ms, start) == Some(before)
    requires ResultsAfter(input, ms, n).Some? && c == GroupExecution(input, ms, start, n, before) && !c.Win?
    ensures Halted(Gather(input, ms, start, n + 1, before), ms[n].id, c)
  {
    WonGroup(input, ms, start, n, before);
    GatherNext(input, ms, start, n, before);
  }

  lemma HaltedOn(input: Input, ms: seq<Match>, start: nat, n: nat, end: nat, before: Results, id: Digest, c: Execution)
    requires input.topics != [] && start <= n <= end <= |ms| && Halted(Gather(input, ms, start, n, before), id, c)
    ensures Halted(Gather(input, ms, start, end, before), id, c)
  {
    GatherOn(input, ms, start, n, end, before);
    StaysHalted(Gather(input, ms, start, n, before), id, c, ms, n, Plan(input, ms, start, n, end, before));
  }

  /** The group of the match at which the sequential runner halts. */
  lemma GroupStops(input: Input, ms: seq<Match>, start: nat, end: nat, n: nat, before: Results, o: Outcome)
    requires input.topics != [] && Sorted(ms) && EntrantsIn(ms, input.entrants)
    requires start <= n < end <= |ms| && OneGroup(ms, start, end) && ResultsAfter(input, ms, start) == Some(before)
    requires HaltsAt(input, ms, n, o)
    ensures var g := Gather(input, ms, start, end, before);
            (g.refund.Some? || g.blocked != []) && StopsAlike(o, ms[n].id, Stop(g.refund, g.blocked, g.results))
  {
    var s, c := HaltingExecution(input, ms, start, n, before, o);
    HaltsHere(input, ms, start, n, before, c);
    HaltedOn(input, ms, start, n + 1, end, before, ms[n].id, c);
    HaltFits(s, c, ms[n].id, ResultsAfter(input, ms, n).value, Gather(input, ms, start, end, before));
  }

  /** Both runners stop early together, and in answers that fit. */
  lemma {:induction false} StopTogether(input: Input, ms: seq<Match>, start: nat, n: nat, before: Results, o: Outcome)
    requires input.topics != [] && Sorted(ms) && EntrantsIn(ms, input.entrants)
    requires start <= n < |ms| && ResultsAfter(input, ms, start) == Some(before) && HaltsAt(input, ms, n, o)
    ensures var stopped := InGroups(input, ms, start, before).1;
            stopped.Some? && StopsAlike(o, ms[n].id, stopped.value)
    decreases n - start
  {
    var end := GroupEnd(ms, start, start + 1);
    if n < end {
      GroupStops(input, ms, start, end, n, before, o);
    } else {
      ResultsGrow(input, ms, end, n);
      WonGroup(input, ms, start, end, before);
      StopTogether(input, ms, end, n, ResultsAfter(input, ms, end).value, o);
    }
  }

  /** When the sequential run halts at match n with one outcome, and the concurrent run stops with another, whatever
      its batch size, the two fit. */
  lemma EarlyOutcomesAlike(input: Input, n: nat, sequential: Outcome, concurrent: Outcome)
    requires Accepted(input) && n < |BlueprintOf(input.env, input.entrants).matches|
    requires var ms := BlueprintOf(input.env, input.entrants).matches;
             HaltsAt(input, ms, n, sequential) && InGroups(input, ms, 0, map[]).1 == Some(concurrent)
    ensures StopsAlike(sequential, BlueprintOf(input.env, input.entrants).matches[n].id, concurrent)
  {
    Scheduled(input);
    StopTogether(input, BlueprintOf(input.env, input.entrants).matches, 0, n, map[], sequential);
  }

  // ---------- what an outcome says about the attempts ----------

  /** Match n, between the entrants its sides stand for, ends in this way. */
  ghost predicate MatchEnds(input: Input, ms: seq<Match>, n: nat, results: Results, caught: bool, e: Execution)
    requires input.topics != [] && n < |ms|
  {
    var a, b := Walk(ms, results, ms[n].slotA), Walk(ms, results, ms[n].slotB);
    a.Some? && b.Some? && exists k :: DecidedAt(input, ms[n], n, a.value, b.value, caught, e, k)
  }

  /** Matches up to n are won, each with the verdict of its deciding attempt. */
  ghost predicate WonUpTo(input: Input, ms: seq<Match>, n: nat, results: Results)
    requires input.topics != [] && n <= |ms|
  {
    forall i :: 0 <= i < n ==> ms[i].id in results && MatchEnds(input, ms, i, results, false, Win(results[ms[i].id]))
  }

  /** Every match is won, and no other result recorded. */
  ghost predicate AllWon(input: Input, ms: seq<Match>, results: Results)
    requires input.topics != []
  {
    results.Keys == IdSet(ms) && WonUpTo(input, ms, |ms|, results)
  }

  lemma AllWonVerdicts(input: Input, ms: seq<Match>, results: Results)
    requires input.topics != [] && Sorted(ms) && ResultsAfter(input, ms, |ms|) == Some(results)
    ensures AllWon(input, ms, results)
  {
    ResultsMean(input, ms, |ms|);
    assert ms[..|ms|] == ms;
  }

  /** The sequential runner's answer to a match that is not won. */
  predicate AnswersHalt(o: Outcome, id: Digest, e: Execution, results: Results) {
    match e
    case Win(_) => false
    case RefundRequired(why) => o == Refund(why)
    case InferenceRejected => o == Rejected
    case WaitingForJudge(_) => o == Blocked(id, e, results, map[])
    case RecoveryRequired(_, _) => o == Blocked(id, e, results, map[])
  }

  /** The outcome of a sequential run whose first unwon match is match n. */
  ghost predicate StoppedAt(input: Input, ms: seq<Match>, n: nat, o: Outcome)
    requires input.topics != [] && n < |ms|
  {
    exists results: Results, e {:trigger AnswersHalt(o, ms[n].id, e, results)} ::
      && results.Keys == IdSet(ms[..n]) && WonUpTo(input, ms, n, results)
      && MatchEnds(input, ms, n, results, false, e) && AnswersHalt(o, ms[n].id, e, results)
  }

  lemma SidesLater(input: Input, ms: seq<Match>, n: nat, before: Results, results: Results)
    requires input.topics != [] && Sorted(ms) && n < |ms| && Sides(ms, n, before).Some? && Extends(before, results)
    ensures var sides := Sides(ms, n, before).value;
            && Walk(ms, results, ms[n].slotA) == Some(sides.0) && Walk(ms, results, ms[n].slotB) == Some(sides.1)
  {
    assert ReadyAfter(ms[..n], ms[n]);
    WalkPrefix(ms, n, results, ms[n].slotA);
    WalkPrefix(ms, n, results, ms[n].slotB);
    WalkMonotone(ms[..n], before, results, ms[n].slotA);
    WalkMonotone(ms[..n], before, results, ms[n].slotB);
  }

  lemma ResultsExtend(input: Input, ms: seq<Match>, n: nat, k: nat)
    requires input.topics != [] && n <= k <= |ms| && UniqueIds(ms) && ResultsAfter(input, ms, k).Some?
    ensures ResultsAfter(input, ms, n).Some?
    ensures Extends(ResultsAfter(input, ms, n).value, ResultsAfter(input, ms, k).value)
  {
    ResultsGrow(input, ms, n, k);
    ResultsDecide(input, ms, n);
    var early, late := ResultsAfter(input, ms, n).value, ResultsAfter(input, ms, k).value;
    forall id | Decisive(early, id) ensures id in late && late[id] == early[id] {
      var m :| m in ms[..n] && m.id == id;
      var i :| 0 <= i < n && ms[i] == m;
    }
  }

  lemma WonAt(input: Input, ms: seq<Match>, n: nat, i: nat)
    requires input.topics != [] && Sorted(ms) && i < n <= |ms| && ResultsAfter(input, ms, n).Some?
    ensures var results := ResultsAfter(input, ms, n).value;
            ms[i].id in results && MatchEnds(input, ms, i, results, false, Win(results[ms[i].id]))
  {
    var results := ResultsAfter(input, ms, n).value;
    ResultsGrow(input, ms, i + 1, n);
    ResultsExtend(input, ms, i, n);
    var before := ResultsAfter(input, ms, i).value;
    SidesLater(input, ms, i, before, results);
    var sides := Sides(ms, i, before).value;
    var k := AttemptsDecide(input, ms[i], i, 1, sides.0, sides.1);
  }

  /** What the sequential run has after n matches are the verdicts of their deciding attempts. */
  lemma ResultsMean(input: Input, ms: seq<Match>, n: nat)
    requires input.topics != [] && Sorted(ms) && n <= |ms| && ResultsAfter(input, ms, n).Some?
    ensures var results := ResultsAfter(input, ms, n).value;
            results.Keys == IdSet(ms[..n]) && WonUpTo(input, ms, n, results)
  {
    ResultsDecide(input, ms, n);
    forall i | 0 <= i < n
      ensures var results := ResultsAfter(input, ms, n).value;
              ms[i].id in results && MatchEnds(input, ms, i, results, false, Win(results[ms[i].id]))
    {
      WonAt(input, ms, n, i);
    }
  }

  lemma HaltMeans(input: Input, ms: seq<Match>, n: nat, o: Outcome)
    requires input.topics != [] && Sorted(ms) && n < |ms| && HaltsAt(input, ms, n, o)
    ensures StoppedAt(input, ms, n, o)
  {
    var results := ResultsAfter(input, ms, n).value;
    ResultsMean(input, ms, n);
    SidesLater(input, ms, n, results, results);
    var sides := Sides(ms, n, results).value;
    var e := AttemptsFrom(input, ms[n], n, 1, sides.0, sides.1);
    var k := AttemptsDecide(input, ms[n], n, 1, sides.0, sides.1);
    assert MatchEnds(input, ms, n, results, false, e);
    assert AnswersHalt(o, ms[n].id, e, results);
  }

  /** What the executions of a group come to: the blocked ones at these places, in order. */
  ghost predicate SortedOut(g: Gathered, before: Results, ms: seq<Match>, start: nat, executions: seq<Execution>,
      at: seq<nat>)
    requires start + |executions| <= |ms|
  {
    if g.refund.Some? then FirstRefund(executions, g.refund.value)
    else Recorded(g.results, before, ms, start, executions, at) && Blocks(g.blocked, ms, start, executions, at)
  }

  /** The results before the group and its wins; what is not won is at one of these places. */
  ghost predicate Recorded(results: Results, before: Results, ms: seq<Match>, start: nat, executions: seq<Execution>,
      at: seq<nat>)
    requires start + |executions| <= |ms|
  {
    && (forall i :: 0 <= i < |executions| ==> !executions[i].RefundRequired?)
    && (forall i :: 0 <= i < |executions| && executions[i].Win? ==>
          ms[start + i].id in results && results[ms[start + i].id] == executions[i].result)
    && (forall i :: 0 <= i < |executions| && !executions[i].Win? ==> ms[start + i].id !in results && i in at)
    && (forall i :: 0 <= i < start ==>
          ms[i].id in before && ms[i].id in results && results[ms[i].id] == before[ms[i].id])
    && results.Keys <= IdSet(ms[..start + |executions|])
  }

  ghost predicate FirstRefund(executions: seq<Execution>, why: RefundReason) {
    exists i :: 0 <= i < |executions| && executions[i] == RefundRequired(why)
                && forall j :: 0 <= j < i ==> !executions[j].RefundRequired?
  }

  predicate Blocks(blocked: seq<(Digest, Execution)>, ms: seq<Match>, start: nat, executions: seq<Execution>,
      at: seq<nat>)
    requires start + |executions| <= |ms|
  {
    && |at| == |blocked| && (forall j, k :: 0 <= j < k < |at| ==> at[j] < at[k])
    && forall j :: 0 <= j < |at| ==>
         at[j] < |executions| && !executions[at[j]].Win?
         && blocked[j] == (ms[start + at[j]].id, executions[at[j]])
  }

  lemma CollectedSnoc(g: Gathered, ms: seq<Match>, n: nat, executions: seq<Execution>, e: Execution)
    requires n + |executions| < |ms|
    ensures Collected(g, ms, n, executions + [e])
         == Add(Collected(g, ms, n, executions), ms[n + |executions|].id, e)
  {
    CollectedConcat(g, ms, n, executions, [e]);
    assert [e][1..] == [];
  }

  lemma RefundSorted(executions: seq<Execution>, e: Execution, why: RefundReason)
    requires FirstRefund(executions, why)
    ensures FirstRefund(executions + [e], why)
  {
    var i :| 0 <= i < |executions| && executions[i] == RefundRequired(why)
      && forall j :: 0 <= j < i ==> !executions[j].RefundRequired?;
    var more := executions + [e];
    assert forall j :: 0 <= j <= i ==> more[j] == executions[j];
  }

  lemma WinSorted(g: Gathered, before: Results, ms: seq<Match>, start: nat, executions: seq<Execution>, at: seq<nat>,
      e: Execution)
    requires start + |executions| < |ms| && UniqueIds(ms) && SortedOut(g, before, ms, start, executions, at)
    requires g.refund.None? && e.Win?
    ensures SortedOut(g.(results := g.results[ms[start + |executions|].id := e.result]), before, ms, start,
                      executions + [e], at)
  {
    var n := |executions|;
    var more := executions + [e];
    assert ms[..start + n + 1] == ms[..start + n] + [ms[start + n]];
    assert forall i :: 0 <= i < n ==> more[i] == executions[i];
    assert forall i :: 0 <= i < start + n ==> ms[i].id != ms[start + n].id;
  }

  lemma BlockRecorded(results: Results, before: Results, ms: seq<Match>, start: nat, executions: seq<Execution>,
      at: seq<nat>, e: Execution)
    requires start + |executions| < |ms| && UniqueIds(ms) && Recorded(results, before, ms, start, executions, at)
    requires !e.Win? && !e.RefundRequired?
    ensures Recorded(results, before, ms, start, executions + [e], at + [|executions|])
  {
    var n := |executions|;
    var more, last := executions + [e], at + [n];
    assert ms[..start + n + 1] == ms[..start + n] + [ms[start + n]];
    assert forall i :: 0 <= i < n ==> more[i] == executions[i];
    assert ms[start + n].id !in IdSet(ms[..start + n]);
    assert forall i :: i in at ==> i in last;
    assert last[|at|] == n;
  }

  lemma BlockSorted(g: Gathered, before: Results, ms: seq<Match>, start: nat, executions: seq<Execution>, at: seq<nat>,
      e: Execution)
    requires start + |executions| < |ms| && UniqueIds(ms) && SortedOut(g, before, ms, start, executions, at)
    requires g.refund.None? && !e.Win? && !e.RefundRequired?
    ensures SortedOut(g.(blocked := g.blocked + [(ms[start + |executions|].id, e)]), before, ms, start,
                      executions + [e], at + [|executions|])
  {
    BlockRecorded(g.results, before, ms, start, executions, at, e);
    BlocksSnoc(g.blocked, ms, start, executions, at, e);
  }

  lemma BlocksSnoc(blocked: seq<(Digest, Execution)>, ms: seq<Match>, start: nat, executions: seq<Execution>,
      at: seq<nat>, e: Execution)
    requires start + |executions| < |ms| && Blocks(blocked, ms, start, executions, at) && !e.Win?
    ensures Blocks(blocked + [(ms[start + |executions|].id, e)], ms, start, executions + [e], at + [|executions|])
  {
  }

  lemma AddSorted(g: Gathered, before: Results, ms: seq<Match>, start: nat, executions: seq<Execution>, at: seq<nat>,
      e: Execution)
    returns (at': seq<nat>)
    requires start + |executions| < |ms| && UniqueIds(ms) && SortedOut(g, before, ms, start, executions, at)
    ensures SortedOut(Add(g, ms[start + |executions|].id, e), before, ms, start, executions + [e], at')
  {
    at' := at;
    if g.refund.Some? {
      RefundSorted(executions, e, g.refund.value);
    } else if e.Win? {
      WinSorted(g, before, ms, start, executions, at, e);
    } else if e.RefundRequired? {
      RefundNow(executions, e);
    } else {
      BlockSorted(g, before, ms, start, executions, at, e);
      at' := at + [|executions|];
    }
  }

  lemma RefundNow(executions: seq<Execution>, e: Execution)
    requires e.RefundRequired? && forall i :: 0 <= i < |executions| ==> !executions[i].RefundRequired?
    ensures FirstRefund(executions + [e], e.why)
  {
    var more := executions + [e];
    assert more[|executions|] == RefundRequired(e.why);
    assert forall j :: 0 <= j < |executions| ==> more[j] == executions[j];
  }

  lemma NothingSorted(before: Results, ms: seq<Match>, start: nat)
    requires start <= |ms| && before.Keys == IdSet(ms[..start])
    ensures SortedOut(Gathered(before, [], None), before, ms, start, [], [])
  {
    forall i | 0 <= i < start ensures ms[i].id in before { assert ms[i] in ms[..start]; }
    assert ms[..start + 0] == ms[..start];
  }

  lemma {:induction false} CollectedSorted(before: Results, ms: seq<Match>, start: nat, executions: seq<Execution>)
      returns (at: seq<nat>)
    requires start + |executions| <= |ms| && UniqueIds(ms) && before.Keys == IdSet(ms[..start])
    ensures SortedOut(Collected(Gathered(before, [], None), ms, start, executions), before, ms, start, executions, at)
    decreases |executions|
  {
    if executions == [] {
      at := [];
      NothingSorted(before, ms, start);
    } else {
      var n := |executions| - 1;
      var front, e := executions[..n], executions[n];
      var rest := CollectedSorted(before, ms, start, front);
      at := CollectedOneMore(before, ms, start, front, e, rest);
      assert front + [e] == executions;
    }
  }

  lemma CollectedOneMore(before: Results, ms: seq<Match>, start: nat, front: seq<Execution>, e: Execution,
      rest: seq<nat>) returns (at: seq<nat>)
    requires start + |front| < |ms| && UniqueIds(ms)
    requires SortedOut(Collected(Gathered(before, [], None), ms, start, front), before, ms, start, front, rest)
    ensures SortedOut(Collected(Gathered(before, [], None), ms, start, front + [e]), before, ms, start, front + [e], at)
  {
    CollectedSnoc(Gathered(before, [], None), ms, start, front, e);
    at := AddSorted(Collected(Gathered(before, [], None), ms, start, front), before, ms, start, front, rest, e);
  }

  /** All matches of one stage and round. */
  predicate WholeGroup(ms: seq<Match>, start: nat, end: nat) {
    && start < end <= |ms| && (forall i :: start <= i < end ==> SameGroup(ms[i], ms[start]))
    && (end < |ms| ==> !SameGroup(ms[end], ms[start])) && (start > 0 ==> !SameGroup(ms[start - 1], ms[start]))
  }

  /** The blocked match a concurrent run answers with: the first that needs recovery, or else the first. */
  ghost predicate Selected(ms: seq<Match>, start: nat, end: nat, active: map<Digest, Execution>, id: Digest,
      e: Execution)
    requires start <= end <= |ms|
  {
    exists n :: SelectedPlace(ms, start, end, active, id, e, n)
  }

  predicate SelectedPlace(ms: seq<Match>, start: nat, end: nat, active: map<Digest, Execution>, id: Digest,
      e: Execution, n: int)
    requires start <= end <= |ms|
  {
    && start <= n < end && ms[n].id == id && id in active && active[id] == e
    && (forall i :: start <= i < n && ms[i].id in active ==>
          e.RecoveryRequired? && !active[ms[i].id].RecoveryRequired?)
    && (!e.RecoveryRequired? ==>
          forall i :: start <= i < end && ms[i].id in active ==> !active[ms[i].id].RecoveryRequired?)
  }

  /** A match of a group in which nothing is refunded: won, or waiting or to be recovered. */
  ghost predicate WonOrBlocked(input: Input, ms: seq<Match>, n: nat, results: Results, active: map<Digest, Execution>)
    requires input.topics != [] && n < |ms|
  {
    if ms[n].id in active then
      && ms[n].id !in results && (active[ms[n].id].WaitingForJudge? || active[ms[n].id].RecoveryRequired?)
      && MatchEnds(input, ms, n, results, true, active[ms[n].id])
    else ms[n].id in results && MatchEnds(input, ms, n, results, true, Win(results[ms[n].id]))
  }

  /** The group is refunded because of match n, its first match to end so. */
  ghost predicate RefundedBy(input: Input, ms: seq<Match>, start: nat, n: nat, results: Results, why: RefundReason)
    requires input.topics != [] && start <= n < |ms|
  {
    && MatchEnds(input, ms, n, results, true, RefundRequired(why))
    && forall i :: start <= i < n ==> NotRefunded(input, ms, i, results)
  }

  ghost predicate NotRefunded(input: Input, ms: seq<Match>, n: nat, results: Results)
    requires input.topics != [] && n < |ms|
  {
    exists e :: MatchEnds(input, ms, n, results, true, e) && !e.RefundRequired?
  }

  /** The outcome of a concurrent run that stops in this group. */
  ghost predicate StoppedInGroup(input: Input, ms: seq<Match>, start: nat, end: nat, o: Outcome)
    requires input.topics != [] && start < end <= |ms|
  {
    match o
    case RankingReady(_, _) => false
    case Rejected => false
    case Refund(why) =>
      exists results, n :: WonUpTo(input, ms, start, results) && start <= n < end
                           && RefundedBy(input, ms, start, n, results, why)
    case Blocked(id, e, results, active) =>
      && WonUpTo(input, ms, start, results) && results.Keys <= IdSet(ms[..end])
      && active.Keys <= IdSet(ms[start..end]) && AllWonOrBlocked(input, ms, start, end, results, active)
      && Selected(ms, start, end, active, id, e)
  }

  ghost predicate AllWonOrBlocked(input: Input, ms: seq<Match>, start: nat, end: nat, results: Results,
      active: map<Digest, Execution>)
    requires input.topics != [] && start <= end <= |ms|
  {
    forall i :: start <= i < end ==> WonOrBlocked(input, ms, i, results, active)
  }

  ghost predicate StoppedByGroup(input: Input, ms: seq<Match>, o: Outcome)
    requires input.topics != []
  {
    exists start, end :: 0 <= start < end <= |ms| && WholeGroup(ms, start, end)
                         && StoppedInGroup(input, ms, start, end, o)
  }

  lemma GroupMatchEnds(input: Input, ms: seq<Match>, start: nat, n: nat, before: Results, results: Results)
    requires input.topics != [] && Sorted(ms) && EntrantsIn(ms, input.entrants)
    requires start <= n < |ms| && OneGroup(ms, start, n + 1) && ResultsAfter(input, ms, start) == Some(before)
    requires Extends(before, results)
    ensures MatchEnds(input, ms, n, results, true, GroupExecution(input, ms, start, n, before))
  {
    GroupBegins(input, ms, start, before);
    SidesKnown(input, ms, start, n, before);
    WalkPrefix(ms, start, results, ms[n].slotA);
    WalkPrefix(ms, start, results, ms[n].slotB);
    WalkMonotone(ms[..start], before, results, ms[n].slotA);
    WalkMonotone(ms[..start], before, results, ms[n].slotB);
    var k := CaughtDecide(input, ms[n], n, 1, Walk(ms, results, ms[n].slotA).value,
                          Walk(ms, results, ms[n].slotB).value);
  }

  lemma MatchEndsLater(input: Input, ms: seq<Match>, n: nat, results: Results, more: Results, caught: bool,
      e: Execution)
    requires input.topics != [] && n < |ms| && Extends(results, more) && MatchEnds(input, ms, n, results, caught, e)
    ensures MatchEnds(input, ms, n, more, caught, e)
  {
    WalkMonotone(ms, results, more, ms[n].slotA);
    WalkMonotone(ms, results, more, ms[n].slotB);
  }

  lemma WonLater(input: Input, ms: seq<Match>, n: nat, results: Results, more: Results)
    requires input.topics != [] && n <= |ms| && WonUpTo(input, ms, n, results) && Extends(results, more)
    requires forall i :: 0 <= i < n ==> ms[i].id in more && more[ms[i].id] == results[ms[i].id]
    ensures WonUpTo(input, ms, n, more)
  {
    forall i | 0 <= i < n
      ensures ms[i].id in more && MatchEnds(input, ms, i, more, false, Win(more[ms[i].id]))
    {
      MatchEndsLater(input, ms, i, results, more, false, Win(results[ms[i].id]));
    }
  }

  lemma NeverRejected(input: Input, m: Match, ordinal: nat, a: Digest, b: Digest)
    requires input.topics != []
    ensures Caught(input, m, ordinal, 1, a, b) != InferenceRejected
  {
    CaughtWinsAlike(input, m, ordinal, 1, a, b);
  }

  lemma {:induction false} ActiveAt(blocked: seq<(Digest, Execution)>, j: nat)
    requires j < |blocked| && forall i, k :: 0 <= i < k < |blocked| ==> blocked[i].0 != blocked[k].0
    ensures blocked[j].0 in Active(blocked) && Active(blocked)[blocked[j].0] == blocked[j].1
  {
    var n := |blocked| - 1;
    if j < n {
      ActiveAt(blocked[..n], j);
      assert blocked[..n][j] == blocked[j];
    }
  }

  lemma {:induction false} ActiveFrom(blocked: seq<(Digest, Execution)>, id: Digest) returns (j: nat)
    requires id in Active(blocked)
    ensures j < |blocked| && blocked[j].0 == id
  {
    var n := |blocked| - 1;
    if blocked[n].0 == id { j := n; } else { j := ActiveFrom(blocked[..n], id); }
  }

  lemma {:induction false} FirstRecoveryAt(blocked: seq<(Digest, Execution)>, other: (Digest, Execution))
      returns (j: nat)
    ensures j <= |blocked| && forall i :: 0 <= i < j ==> !blocked[i].1.RecoveryRequired?
    ensures FirstRecovery(blocked, other) == if j < |blocked| then blocked[j] else other
    ensures j < |blocked| ==> blocked[j].1.RecoveryRequired?
  {
    if blocked == [] || blocked[0].1.RecoveryRequired? {
      j := 0;
    } else {
      var k := FirstRecoveryAt(blocked[1..], other);
      j := k + 1;
      assert forall i :: 1 <= i < j ==> blocked[i] == blocked[1..][i - 1];
    }
  }

  /** Which blocked match is chosen: the first to be recovered, or else the first. */
  predicate Chosen(blocked: seq<(Digest, Execution)>, j: nat) {
    && j < |blocked| && (forall i :: 0 <= i < j ==> !blocked[i].1.RecoveryRequired?)
    && (blocked[j].1.RecoveryRequired?
        || (j == 0 && forall i :: 0 <= i < |blocked| ==> !blocked[i].1.RecoveryRequired?))
  }

  lemma SelectChooses(blocked: seq<(Digest, Execution)>) returns (j: nat)
    requires blocked != []
    ensures Chosen(blocked, j) && Select(blocked) == blocked[j]
  {
    var first := FirstRecoveryAt(blocked, blocked[0]);
    j := if first < |blocked| then first else 0;
  }

  /** `active` holds just the blocked matches, which are at these places. */
  ghost predicate Placed(blocked: seq<(Digest, Execution)>, ms: seq<Match>, start: nat, end: nat, at: seq<nat>,
      active: map<Digest, Execution>)
    requires start <= end <= |ms|
  {
    && |at| == |blocked| && (forall j, k :: 0 <= j < k < |at| ==> at[j] < at[k])
    && (forall k :: 0 <= k < |at| ==>
          && start + at[k] < end && blocked[k].0 == ms[start + at[k]].id
          && blocked[k].0 in active && active[blocked[k].0] == blocked[k].1)
    && forall id :: id in active ==> exists k :: 0 <= k < |blocked| && blocked[k].0 == id
  }

  lemma PlaceOf(blocked: seq<(Digest, Execution)>, ms: seq<Match>, start: nat, end: nat, at: seq<nat>,
      active: map<Digest, Execution>, i: nat) returns (k: nat)
    requires start <= i < end <= |ms| && UniqueIds(ms) && Placed(blocked, ms, start, end, at, active)
    requires ms[i].id in active
    ensures k < |at| == |blocked| && i == start + at[k] && active[ms[i].id] == blocked[k].1
    ensures forall j :: 0 <= j < |at| && i < start + at[j] ==> k < j
  {
    k :| 0 <= k < |blocked| && blocked[k].0 == ms[i].id;
    assert ms[start + at[k]].id == ms[i].id;
    assert i == start + at[k];
  }

  lemma ChosenIsSelected(blocked: seq<(Digest, Execution)>, ms: seq<Match>, start: nat, end: nat, at: seq<nat>,
      active: map<Digest, Execution>, j: nat)
    requires start <= end <= |ms| && UniqueIds(ms) && Placed(blocked, ms, start, end, at, active) && Chosen(blocked, j)
    ensures Selected(ms, start, end, active, blocked[j].0, blocked[j].1)
  {
    var n := start + at[j];
    forall i | start <= i < n && ms[i].id in active
      ensures blocked[j].1.RecoveryRequired? && !active[ms[i].id].RecoveryRequired?
    {
      var k := PlaceOf(blocked, ms, start, end, at, active, i);
      assert k < j;
    }
    forall i | start <= i < end && ms[i].id in active && !blocked[j].1.RecoveryRequired?
      ensures !active[ms[i].id].RecoveryRequired?
    {
      var k := PlaceOf(blocked, ms, start, end, at, active, i);
    }
    assert SelectedPlace(ms, start, end, active, blocked[j].0, blocked[j].1, n);
  }

  lemma ActivePlaced(blocked: seq<(Digest, Execution)>, ms: seq<Match>, start: nat, executions: seq<Execution>,
      at: seq<nat>)
    requires start + |executions| <= |ms| && UniqueIds(ms) && Blocks(blocked, ms, start, executions, at)
    ensures Placed(blocked, ms, start, start + |executions|, at, Active(blocked))
  {
    BlockedIds(blocked, ms, start, executions, at);
    forall k | 0 <= k < |at|
      ensures blocked[k].0 in Active(blocked) && Active(blocked)[blocked[k].0] == blocked[k].1
    {
      ActiveAt(blocked, k);
    }
    forall id | id in Active(blocked) ensures exists k :: 0 <= k < |blocked| && blocked[k].0 == id {
      var k := ActiveFrom(blocked, id);
    }
  }

  lemma StopIs(blocked: seq<(Digest, Execution)>, results: Results)
      returns (j: nat, active: map<Digest, Execution>)
    requires blocked != []
    ensures Chosen(blocked, j) && active == Active(blocked)
    ensures Stop(None, blocked, results) == Blocked(blocked[j].0, blocked[j].1, results, active)
  {
    j := SelectChooses(blocked);
    active := Active(blocked);
  }

  lemma BlockedIds(blocked: seq<(Digest, Execution)>, ms: seq<Match>, start: nat, executions: seq<Execution>,
      at: seq<nat>)
    requires start + |executions| <= |ms| && UniqueIds(ms) && Blocks(blocked, ms, start, executions, at)
    ensures forall i, k :: 0 <= i < k < |blocked| ==> blocked[i].0 != blocked[k].0
  {
    forall i, k | 0 <= i < k < |blocked| ensures blocked[i].0 != blocked[k].0 {
      assert at[i] < at[k];
    }
  }

  lemma ActivePlace(blocked: seq<(Digest, Execution)>, ms: seq<Match>, start: nat, executions: seq<Execution>,
      at: seq<nat>, i: nat) returns (k: nat)
    requires start + |executions| <= |ms| && UniqueIds(ms) && Blocks(blocked, ms, start, executions, at)
    requires start <= i < start + |executions| && ms[i].id in Active(blocked)
    ensures k < |at| && i == start + at[k] && Active(blocked)[ms[i].id] == blocked[k].1 == executions[at[k]]
  {
    BlockedIds(blocked, ms, start, executions, at);
    k := ActiveFrom(blocked, ms[i].id);
    ActiveAt(blocked, k);
    assert ms[start + at[k]].id == ms[i].id;
  }

  /** The executions of a group, each of them how its match ends. */
  ghost predicate AreEnds(input: Input, ms: seq<Match>, start: nat, executions: seq<Execution>, results: Results)
    requires input.topics != [] && start + |executions| <= |ms|
  {
    forall i :: 0 <= i < |executions| ==>
      MatchEnds(input, ms, start + i, results, true, executions[i]) && executions[i] != InferenceRejected
  }

  lemma PlanEnds(input: Input, ms: seq<Match>, start: nat, end: nat, before: Results, results: Results)
    requires input.topics != [] && Sorted(ms) && EntrantsIn(ms, input.entrants)
    requires start < end <= |ms| && OneGroup(ms, start, end) && ResultsAfter(input, ms, start) == Some(before)
    requires Extends(before, results)
    ensures AreEnds(input, ms, start, Plan(input, ms, start, start, end, before), results)
  {
    var plan := Plan(input, ms, start, start, end, before);
    forall i | 0 <= i < |plan|
      ensures MatchEnds(input, ms, start + i, results, true, plan[i]) && plan[i] != InferenceRejected
    {
      GroupMatchEnds(input, ms, start, start + i, before, results);
      NotRejectedInGroup(input, ms, start, start + i, before);
    }
  }

  lemma RefundMeans(input: Input, ms: seq<Match>, start: nat, executions: seq<Execution>, results: Results,
      why: RefundReason)
    requires input.topics != [] && executions != [] && start + |executions| <= |ms|
    requires WonUpTo(input, ms, start, results) && AreEnds(input, ms, start, executions, results)
    requires FirstRefund(executions, why)
    ensures StoppedInGroup(input, ms, start, start + |executions|, Refund(why))
  {
    var i :| 0 <= i < |executions| && executions[i] == RefundRequired(why)
      && forall j :: 0 <= j < i ==> !executions[j].RefundRequired?;
    forall n | start <= n < start + i ensures NotRefunded(input, ms, n, results) {
      var j := n - start;
      assert MatchEnds(input, ms, start + j, results, true, executions[j]);
    }
    assert RefundedBy(input, ms, start, start + i, results, why);
  }

  lemma BlockedMatch(input: Input, ms: seq<Match>, start: nat, executions: seq<Execution>, before: Results, g: Gathered,
      at: seq<nat>, n: nat)
    requires input.topics != [] && start <= n < start + |executions| <= |ms| && UniqueIds(ms) && g.refund.None?
    requires SortedOut(g, before, ms, start, executions, at) && AreEnds(input, ms, start, executions, g.results)
    ensures WonOrBlocked(input, ms, n, g.results, Active(g.blocked))
  {
    var i := n - start;
    var e := executions[i];
    assert MatchEnds(input, ms, start + i, g.results, true, e) && e != InferenceRejected;
    assert start + i == n;
    if ms[n].id in Active(g.blocked) {
      var k := ActivePlace(g.blocked, ms, start, executions, at, n);
    } else if !e.Win? {
      PlaceIsActive(g.blocked, ms, start, executions, at, n - start);
      assert false;
    }
  }

  lemma PlaceIsActive(blocked: seq<(Digest, Execution)>, ms: seq<Match>, start: nat, executions: seq<Execution>,
      at: seq<nat>, i: nat)
    requires start + |executions| <= |ms| && UniqueIds(ms) && Blocks(blocked, ms, start, executions, at)
    requires i < |executions| && i in at
    ensures ms[start + i].id in Active(blocked)
  {
    var k :| 0 <= k < |at| && at[k] == i;
    BlockedIds(blocked, ms, start, executions, at);
    ActiveAt(blocked, k);
  }

  lemma NotRejectedInGroup(input: Input, ms: seq<Match>, start: nat, n: nat, before: Results)
    requires input.topics != [] && start <= n < |ms|
    ensures GroupExecution(input, ms, start, n, before) != InferenceRejected
  {
    var a, b := Walk(ms[..start], before, ms[n].slotA), Walk(ms[..start], before, ms[n].slotB);
    if a.Some? && b.Some? { NeverRejected(input, ms[n], n, a.value, b.value); }
  }

  lemma StillBefore(input: Input, ms: seq<Match>, start: nat, before: Results, results: Results)
    requires input.topics != [] && start <= |ms| && UniqueIds(ms) && ResultsAfter(input, ms, start) == Some(before)
    requires forall i :: 0 <= i < start ==>
      ms[i].id in before && ms[i].id in results && results[ms[i].id] == before[ms[i].id]
    ensures Extends(before, results)
  {
    ResultsDecide(input, ms, start);
    forall id | Decisive(before, id) ensures id in results && results[id] == before[id] {
      var m :| m in ms[..start] && m.id == id;
      var i :| 0 <= i < start && ms[i] == m;
    }
  }

  lemma BlocksInGroup(blocked: seq<(Digest, Execution)>, ms: seq<Match>, start: nat, executions: seq<Execution>,
      at: seq<nat>)
    requires start + |executions| <= |ms| && Blocks(blocked, ms, start, executions, at)
    ensures Active(blocked).Keys <= IdSet(ms[start..start + |executions|])
  {
    forall id | id in Active(blocked) ensures id in IdSet(ms[start..start + |executions|]) {
      var j := ActiveFrom(blocked, id);
      assert ms[start..start + |executions|][at[j]] == ms[start + at[j]];
    }
  }

  lemma BlockedMatches(input: Input, ms: seq<Match>, start: nat, executions: seq<Execution>, before: Results,
      g: Gathered, at: seq<nat>)
    requires input.topics != [] && start + |executions| <= |ms| && UniqueIds(ms) && g.refund.None?
    requires SortedOut(g, before, ms, start, executions, at) && AreEnds(input, ms, start, executions, g.results)
    ensures AllWonOrBlocked(input, ms, start, start + |executions|, g.results, Active(g.blocked))
  {
    forall i | start <= i < start + |executions| ensures WonOrBlocked(input, ms, i, g.results, Active(g.blocked)) {
      BlockedMatch(input, ms, start, executions, before, g, at, i);
    }
  }

  lemma BlockedChoice(blocked: seq<(Digest, Execution)>, ms: seq<Match>, start: nat, executions: seq<Execution>,
      at: seq<nat>, results: Results) returns (o: Outcome)
    requires start + |executions| <= |ms| && UniqueIds(ms) && Blocks(blocked, ms, start, executions, at)
    requires blocked != []
    ensures o == Stop(None, blocked, results) && o.Blocked? && o.results == results && o.active == Active(blocked)
    ensures Selected(ms, start, start + |executions|, o.active, o.matchId, o.execution)
    ensures o.active.Keys <= IdSet(ms[start..start + |executions|])
  {
    var j, active := StopIs(blocked, results);
    o := Blocked(blocked[j].0, blocked[j].1, results, active);
    ActiveSelected(blocked, ms, start, executions, at, j);
    BlocksInGroup(blocked, ms, start, executions, at);
  }

  lemma ActiveSelected(blocked: seq<(Digest, Execution)>, ms: seq<Match>, start: nat, executions: seq<Execution>,
      at: seq<nat>, j: nat)
    requires start + |executions| <= |ms| && UniqueIds(ms) && Blocks(blocked, ms, start, executions, at)
    requires Chosen(blocked, j)
    ensures Selected(ms, start, start + |executions|, Active(blocked), blocked[j].0, blocked[j].1)
  {
    ActivePlaced(blocked, ms, start, executions, at);
    ChosenIsSelected(blocked, ms, start, start + |executions|, at, Active(blocked), j);
  }

  lemma BlockMeans(input: Input, ms: seq<Match>, start: nat, end: nat, executions: seq<Execution>, g: Gathered,
      at: seq<nat>)
    requires input.topics != [] && start < end == start + |executions| <= |ms| && UniqueIds(ms)
    requires Blocks(g.blocked, ms, start, executions, at) && g.blocked != []
    requires Stuck(input, ms, start, end, g) && g.results.Keys <= IdSet(ms[..end])
    ensures StoppedInGroup(input, ms, start, end, Stop(None, g.blocked, g.results))
  {
    var o := BlockedChoice(g.blocked, ms, start, executions, at, g.results);
  }

  lemma GatheredParts(input: Input, ms: seq<Match>, start: nat, end: nat, before: Results)
      returns (g: Gathered, plan: seq<Execution>, at: seq<nat>)
    requires input.topics != [] && UniqueIds(ms) && start <= end <= |ms|
    requires ResultsAfter(input, ms, start) == Some(before)
    ensures g == Gather(input, ms, start, end, before) && plan == Plan(input, ms, start, start, end, before)
    ensures start + |plan| == end && SortedOut(g, before, ms, start, plan, at)
  {
    ResultsDecide(input, ms, start);
    g, plan := Gather(input, ms, start, end, before), Plan(input, ms, start, start, end, before);
    at := CollectedSorted(before, ms, start, plan);
  }

  lemma GroupStopMeans(input: Input, ms: seq<Match>, start: nat, end: nat, before: Results)
    requires input.topics != [] && Sorted(ms) && EntrantsIn(ms, input.entrants)
    requires start < end <= |ms| && OneGroup(ms, start, end) && ResultsAfter(input, ms, start) == Some(before)
    requires var g := Gather(input, ms, start, end, before); g.refund.Some? || g.blocked != []
    ensures var g := Gather(input, ms, start, end, before);
            StoppedInGroup(input, ms, start, end, Stop(g.refund, g.blocked, g.results))
  {
    var g, plan, at := GatheredParts(input, ms, start, end, before);
    if g.refund.Some? {
      GroupRefunded(input, ms, start, end, before, plan, g.refund.value);
    } else {
      GroupStuck(input, ms, start, end, before, plan, g, at);
      BlockMeans(input, ms, start, end, plan, g, at);
    }
  }

  lemma GroupRefunded(input: Input, ms: seq<Match>, start: nat, end: nat, before: Results, plan: seq<Execution>,
      why: RefundReason)
    requires input.topics != [] && Sorted(ms) && EntrantsIn(ms, input.entrants)
    requires start < end <= |ms| && OneGroup(ms, start, end) && ResultsAfter(input, ms, start) == Some(before)
    requires plan == Plan(input, ms, start, start, end, before) && FirstRefund(plan, why)
    ensures StoppedInGroup(input, ms, start, end, Refund(why))
  {
    ResultsMean(input, ms, start);
    PlanEnds(input, ms, start, end, before, before);
    RefundMeans(input, ms, start, plan, before, why);
  }

  lemma GroupKeeps(input: Input, ms: seq<Match>, start: nat, before: Results, plan: seq<Execution>, g: Gathered,
      at: seq<nat>)
    requires input.topics != [] && start + |plan| <= |ms| && Sorted(ms)
    requires ResultsAfter(input, ms, start) == Some(before)
    requires SortedOut(g, before, ms, start, plan, at) && g.refund.None?
    ensures Extends(before, g.results) && WonUpTo(input, ms, start, g.results)
  {
    KeptResults(input, ms, start, before, g.results);
  }

  lemma GroupEnded(input: Input, ms: seq<Match>, start: nat, end: nat, before: Results, plan: seq<Execution>,
      g: Gathered, at: seq<nat>)
    requires input.topics != [] && Sorted(ms) && EntrantsIn(ms, input.entrants)
    requires start < end <= |ms| && OneGroup(ms, start, end) && ResultsAfter(input, ms, start) == Some(before)
    requires plan == Plan(input, ms, start, start, end, before) && SortedOut(g, before, ms, start, plan, at)
    requires g.refund.None? && Extends(before, g.results)
    ensures AllWonOrBlocked(input, ms, start, end, g.results, Active(g.blocked))
  {
    PlanEnds(input, ms, start, end, before, g.results);
    BlockedMatches(input, ms, start, plan, before, g, at);
  }

  /** What is known of a group that stops without a refund. */
  ghost predicate Stuck(input: Input, ms: seq<Match>, start: nat, end: nat, g: Gathered)
    requires input.topics != [] && start <= end <= |ms|
  {
    && WonUpTo(input, ms, start, g.results)
    && AllWonOrBlocked(input, ms, start, end, g.results, Active(g.blocked))
  }

  lemma GroupStuck(input: Input, ms: seq<Match>, start: nat, end: nat, before: Results, plan: seq<Execution>,
      g: Gathered, at: seq<nat>)
    requires input.topics != [] && Sorted(ms) && EntrantsIn(ms, input.entrants)
    requires start < end <= |ms| && OneGroup(ms, start, end) && ResultsAfter(input, ms, start) == Some(before)
    requires plan == Plan(input, ms, start, start, end, before) && SortedOut(g, before, ms, start, plan, at)
    requires g.refund.None?
    ensures Stuck(input, ms, start, end, g)
  {
    GroupKeeps(input, ms, start, before, plan, g, at);
    GroupEnded(input, ms, start, end, before, plan, g, at);
  }

  lemma KeptResults(input: Input, ms: seq<Match>, start: nat, before: Results, results: Results)
    requires input.topics != [] && start <= |ms| && Sorted(ms) && ResultsAfter(input, ms, start) == Some(before)
    requires forall i :: 0 <= i < start ==>
      ms[i].id in before && ms[i].id in results && results[ms[i].id] == before[ms[i].id]
    ensures Extends(before, results) && WonUpTo(input, ms, start, results)
  {
    StillBefore(input, ms, start, before, results);
    ResultsMean(input, ms, start);
    WonLater(input, ms, start, before, results);
  }

  /** Where the groups stop, an outcome says what ended the matches of one whole group. */
  lemma {:induction false} StopMeans(input: Input, ms: seq<Match>, start: nat, before: Results, o: Outcome)
      returns (first: nat, end: nat)
    requires input.topics != [] && Sorted(ms) && EntrantsIn(ms, input.entrants) && start <= |ms|
    requires ResultsAfter(input, ms, start) == Some(before) && InGroups(input, ms, start, before).1 == Some(o)
    requires 0 < start < |ms| ==> !SameGroup(ms[start - 1], ms[start])
    ensures first < end <= |ms| && WholeGroup(ms, first, end) && StoppedInGroup(input, ms, first, end, o)
    decreases |ms| - start
  {
    first, end := start, GroupEnd(ms, start, start + 1);
    var g := Gather(input, ms, start, end, before);
    if g.refund.Some? || g.blocked != [] {
      GroupStopMeans(input, ms, start, end, before);
    } else {
      GatherTracks(input, ms, start, end, before);
      assert end < |ms| ==> SameGroup(ms[end - 1], ms[start]);
      first, end := StopMeans(input, ms, end, g.results, o);
    }
  }
}
