// Which steps of the run tracker make a record what it is, in any state of any number of processes:
// packages/evaluation/src/run-tracker.ts:287-434.

module RunStates {
  import opened Wrappers
  import opened RunTracker

  function At(s: System, e: Event): State {
    View(s, e.process)
  }

  predicate Reads(poll: Poll) {
    poll.ReadingCanonical? || poll.ReadingAgain?
  }

  /** A poll whose copy says that its next attempt is due: attempts are left, and the last one is replayDelay ago. */
  predicate Retries(c: Config, poll: Poll, now: nat) {
    && poll.ReadingCanonical? && poll.record.judge.Persisted?
    && var meta := poll.record.judge.meta;
       && (if meta.attempts.Some? then meta.attempts.value else 1) < c.maxAttempts
       && now - (if meta.lastAttemptAt.Some? then meta.lastAttemptAt.value else now) >= c.replayDelay
  }

  // ---------- RECOVERY_REQUIRED ----------

  /** The stored record has used up its attempts and its time. */
  predicate UsedUp(c: Config, r: Record, now: nat) {
    && HashFree(r.judge) && r.judge.meta.firstPersistedAt.Some?
    && (if r.judge.meta.attempts.Some? then r.judge.meta.attempts.value else 1) >= c.maxAttempts
    && now - r.judge.meta.firstPersistedAt.value >= c.recoveryTimeout
  }

  /** A poll reads that the chain has no result, with no replay due or after one, and the stored record has used up
      its attempts and its time. */
  predicate GivesUp(c: Config, s: State, a: Action) {
    && a.CanonicalRead? && a.answer == Unknown && s.record.judge.Persisted? && UsedUp(c, s.record, s.now)
    && (s.poll.ReadingAgain?
        || (s.poll.ReadingCanonical? && s.poll.record.judge.Persisted? && !Retries(c, s.poll, s.now)))
  }

  lemma GivesUpExactly(c: Config, s: State, a: Action)
    requires ValidConfig(c) && Sound(c, s) && !s.record.judge.Recovery?
    ensures Next(c, s, a).record.judge.Recovery? <==> GivesUp(c, s, a)
    ensures GivesUp(c, s, a) ==>
      Next(c, s, a).record == s.record.(judge := Recovery(s.record.judge.fingerprint, s.record.judge.meta))
  {
  }

  /** RECOVERY_REQUIRED is stored exactly by such a step, and keeps the rest of the record. */
  lemma RecoveryExactly(c: Config, s: System, e: Event)
    requires ValidConfig(c) && SystemSound(c, s) && !s.record.judge.Recovery?
    ensures Step(c, s, e).record.judge.Recovery? <==> GivesUp(c, At(s, e), e.action)
    ensures GivesUp(c, At(s, e), e.action) ==>
      Step(c, s, e).record == s.record.(judge := Recovery(s.record.judge.fingerprint, s.record.judge.meta))
  {
    GivesUpExactly(c, At(s, e), e.action);
  }

  lemma GivenUpStep(c: Config, s: State, a: Action)
    requires ValidConfig(c) && Sound(c, s) && (s.record.judge.Recovery? ==> UsedUp(c, s.record, s.now))
    ensures var t := Next(c, s, a); t.record.judge.Recovery? ==> UsedUp(c, t.record, t.now)
  {
    if !s.record.judge.Recovery? { GivesUpExactly(c, s, a); }
  }

  /** In every history a run that requires recovery has used up its stored attempts, and its time. */
  lemma {:induction false} GivenUpUsedUp(c: Config, s: System, events: seq<Event>)
    requires ValidConfig(c) && Start(c, s)
    ensures var t := Run(c, s, events); t.record.judge.Recovery? ==> UsedUp(c, t.record, t.now)
  {
    if events != [] {
      var n := |events| - 1;
      GivenUpUsedUp(c, s, events[..n]);
      HistorySound(c, s, events[..n]);
      GivenUpStep(c, At(Run(c, s, events[..n]), events[n]), events[n].action);
    }
  }

  // ---------- FAILED and FINALIZED ----------

  /** FAILED is stored exactly by a poll that reads a final receipt of a failed execution: over its own copy. */
  lemma FailedExactly(c: Config, s: System, e: Event)
    requires SystemSound(c, s) && !s.record.judge.Failed?
    ensures var v, t := At(s, e), Step(c, s, e);
            && (t.record.judge.Failed? <==> v.poll.ReadingReceipt? && e.action == ReceiptRead(ExecutionFailed))
            && (t.record.judge.Failed? ==>
                  && HashOf(v.poll.record.judge).Some?
                  && t.record == v.poll.record.(
                       judge := Failed(v.poll.record.judge.fingerprint, HashOf(v.poll.record.judge).value)))
  {
    assert ProcessSound(c, s.record, ProcessOf(s, e.process));
  }

  /** A poll reads a scorecard that its validation accepts: of a run without a known hash, or after a final receipt
      of a successful execution. */
  predicate ReadsScorecard(poll: Poll, a: Action) {
    || (Reads(poll) && a.CanonicalRead? && a.answer.Valid?)
    || (poll.ReadingResult? && a.ResultRead? && a.answer.Valid?)
  }

  /** FINALIZED is stored exactly by such a poll, over its own copy, with that scorecard, and with the hash only after
      a receipt. */
  lemma FinalizedExactly(c: Config, s: System, e: Event)
    requires SystemSound(c, s) && !s.record.judge.Finalized?
    ensures var v, t := At(s, e), Step(c, s, e);
            && (t.record.judge.Finalized? <==> ReadsScorecard(v.poll, e.action))
            && (t.record.judge.Finalized? ==>
                  && !v.poll.record.judge.NotSubmitted?
                  && t.record == v.poll.record.(
                       judge := Finalized(v.poll.record.judge.fingerprint,
                                          if Reads(v.poll) then None else HashOf(v.poll.record.judge)),
                       scorecard := Some(e.action.answer.scorecard)))
  {
    assert ProcessSound(c, s.record, ProcessOf(s, e.process));
  }

  /** A hash is stored exactly when a submission gets it, or a poll reads that its receipt is not final yet. */
  lemma TrackedExactly(c: Config, s: System, e: Event)
    requires SystemSound(c, s) && !s.record.judge.Tracked?
    ensures var v, t := At(s, e), Step(c, s, e);
            && (t.record.judge.Tracked? <==>
                  || (v.submission == Sending && e.action.SubmissionReturns? && e.action.reply.Hash?)
                  || (v.poll.ReadingReceipt? && e.action.ReceiptRead? && e.action.receipt.Unfinished?))
            && (v.submission == Sending && e.action.SubmissionReturns? && e.action.reply.Hash? ==>
                  && !s.record.judge.NotSubmitted?
                  && t.record == s.record.(
                       judge := Tracked(s.record.judge.fingerprint, Submitted, e.action.reply.hash)))
  {
    assert ProcessSound(c, s.record, ProcessOf(s, e.process));
  }

  // ---------- polls ----------

  /** The stored record with its attempt metadata completed, as an older release left it without. */
  function WithMetadata(r: Record, now: nat): Record {
    match r.judge
    case Persisted(fp, meta) => r.(judge := Persisted(fp, Filled(meta, now)))
    case Recovery(fp, meta) => r.(judge := Recovery(fp, Filled(meta, now)))
    case _ => r
  }

  function Filled(meta: Meta, now: nat): Meta {
    Meta(if meta.attempts.None? then Some(1) else meta.attempts,
         if meta.firstPersistedAt.None? then Some(now) else meta.firstPersistedAt,
         if meta.lastAttemptAt.None? then Some(now) else meta.lastAttemptAt)
  }

  /** After its replay a poll reads again that the chain has no result. */
  predicate ReadsNothing(poll: Poll, a: Action) {
    poll.ReadingAgain? && a.CanonicalRead? && a.answer == Unknown
  }

  /** Where a poll goes: it reads the chain's view of a run without a known hash, the receipt of one with a hash, and
      the result after a final receipt; and it reads the view again after its own replay. */
  lemma PollGoesOn(c: Config, s: System, e: Event)
    requires SystemSound(c, s)
    ensures var v, t, q := At(s, e), Step(c, s, e), ProcessOf(Step(c, s, e), e.process).poll;
            && (e.action == PollBegins && v.poll == NoPoll ==>
                  && t.record == WithMetadata(s.record, s.now)
                  && q == (if HashFree(s.record.judge) then ReadingCanonical(t.record)
                           else if s.record.judge.Tracked? then ReadingReceipt(s.record)
                           else NoPoll))
            && (Retries(c, v.poll, s.now) && e.action == CanonicalRead(Unknown, true) ==>
                  q == if v.submission == NoSubmission then ReadingAgain(s.record) else Joining)
            && (v.poll.ReadingReceipt? && e.action == ReceiptRead(ExecutionSucceeded) ==>
                  q == ReadingResult(v.poll.record) && t.record == s.record)
            && (v.poll == Joining && v.submission == Sending && e.action.SubmissionReturns? ==>
                  q == ReadingAgain(t.record))
            && (ReadsNothing(v.poll, e.action) && HashOf(s.record.judge).Some? ==> q == ReadingReceipt(s.record))
  {
    assert ProcessSound(c, s.record, ProcessOf(s, e.process));
  }

  // ---------- attempts ----------

  predicate Submits(s: State, a: Action) {
    a == SubmitBegins && s.submission == NoSubmission && s.record.provider.ProviderSuccess?
    && s.record.judge == NotSubmitted
  }

  /** A poll reads that the chain has no result, its next attempt is due, no submission of its own process is in
      flight, nobody else has the lease, and the stored record is to be sent again or was finalized without a hash. */
  predicate Replays(c: Config, s: State, a: Action) {
    && a == CanonicalRead(Unknown, false) && Retries(c, s.poll, s.now) && s.submission == NoSubmission
    && (s.record.judge.Persisted? || (s.record.judge.Finalized? && s.record.judge.finalHash == None))
  }

  lemma BeginsExactly(c: Config, s: State, a: Action)
    requires Sound(c, s)
    ensures Next(c, s, a).starts == s.starts + if Submits(s, a) || Replays(c, s, a) then 1 else 0
    ensures Submits(s, a) || Replays(c, s, a) ==>
      Next(c, s, a).submission == AboutToSend && Next(c, s, a).record.judge.Persisted?
    ensures Submits(s, a) ==> Next(c, s, a).poll == s.poll
    ensures Replays(c, s, a) ==> Next(c, s, a).poll == Joining
  {
  }

  /** An attempt begins exactly with a first submission or with a replay that is due: it is persisted, with its number
      and its time, before it is sent; and a poll waits for its replay. */
  lemma AttemptsExactly(c: Config, s: System, e: Event)
    requires SystemSound(c, s)
    ensures var v, t := At(s, e), Step(c, s, e);
            && t.starts == s.starts + (if Submits(v, e.action) || Replays(c, v, e.action) then 1 else 0)
            && (Submits(v, e.action) ==> ProcessOf(t, e.process) == Process(AboutToSend, v.poll))
            && (Replays(c, v, e.action) ==> ProcessOf(t, e.process) == Process(AboutToSend, Joining))
            && (Submits(v, e.action) ==>
                  && t.record.judge.Persisted? && t.record.judge.meta == Meta(Some(1), Some(s.now), Some(s.now)))
            && (Replays(c, v, e.action) && s.record.judge.Persisted? ==>
                  && t.record.judge.Persisted? && t.record.judge.meta.lastAttemptAt == Some(s.now)
                  && Attempts(t.record.judge) == Attempts(s.record.judge) + 1
                  && t.record.judge.meta.firstPersistedAt
                     == if s.record.judge.meta.firstPersistedAt.None? then Some(s.now)
                        else s.record.judge.meta.firstPersistedAt)
  {
    assert ProcessSound(c, s.record, ProcessOf(s, e.process));
    BeginsExactly(c, At(s, e), e.action);
  }

  /** What has begun is sent once, and nothing else is. */
  lemma SendsExactly(c: Config, s: System, e: Event)
    ensures Step(c, s, e).sends
         == s.sends + if At(s, e).submission == AboutToSend && e.action == Sends then 1 else 0
    ensures At(s, e).submission == AboutToSend && e.action == Sends ==>
      ProcessOf(Step(c, s, e), e.process).submission == Sending
  {
  }
}
