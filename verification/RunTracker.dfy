// The evaluation run tracker as a step machine: packages/evaluation/src/run-tracker.ts:256-434.
// A step is what one operation does between two awaits. Any number of processes may work on one run, each
// with at most one poll and one submission of its own in flight (a second call joins the first), and each
// poll with its own copy of the record. A crash may come between any two steps of a process and loses its
// operations, never the stored record.

module RunTracker {
  import opened Wrappers

  datatype Meta = Meta(attempts: Option<nat>, firstPersistedAt: Option<nat>, lastAttemptAt: Option<nat>)
  datatype Stage = Submitted | Pending | Accepted
  /** FINALIZED has the transaction hash only when it was reached through a receipt. */
  datatype Judge =
    | NotSubmitted
    | Persisted(fingerprint: string, meta: Meta)
    | Recovery(fingerprint: string, meta: Meta)
    | Tracked(fingerprint: string, stage: Stage, hash: string)
    | Finalized(fingerprint: string, finalHash: Option<string>)
    | Failed(fingerprint: string, failedHash: string)
  datatype Provider = ProviderPending | ProviderSuccess(response: string) | ProviderFailed(code: string)
  datatype Record = Record(binding: string, provider: Provider, judge: Judge, scorecard: Option<string>)

  /** Limits, and the fingerprint of a submission: a function of what the run is bound to. */
  datatype Config = Config(
    maxAttempts: nat, replayDelay: nat, recoveryTimeout: nat, fingerprint: (string, string) -> string)

  predicate ValidConfig(c: Config) {
    1 <= c.maxAttempts <= 3 && c.replayDelay < c.recoveryTimeout
  }

  /** A process's submission, whether begun by submit or by a poll that replays. */
  datatype Submission = NoSubmission | AboutToSend | Sending
  /** Where a process's poll waits, with its own copy of the record. */
  datatype Poll =
    | NoPoll
    | ReadingCanonical(record: Record)
    | Joining
    | ReadingAgain(record: Record)
    | ReadingReceipt(record: Record)
    | ReadingResult(record: Record)

  /** What one process works on. `starts` counts the submissions persisted to be sent, `stale` those of them
      begun by a poll whose copy no longer has the stored attempt counter. */
  datatype State = State(
    record: Record, submission: Submission, poll: Poll, now: nat, sends: nat, starts: nat, stale: nat)

  datatype Process = Process(submission: Submission, poll: Poll)
  datatype System = System(
    record: Record, processes: map<nat, Process>, now: nat, sends: nat, starts: nat, stale: nat)

  /** What the chain's view answers: no result, something the validation rejects, or a scorecard. */
  datatype Answer = Unknown | Rejected | Valid(scorecard: string)
  datatype Receipt = Malformed | Unfinished(stage: Stage) | ExecutionFailed | ExecutionSucceeded
  datatype Reply = Hash(hash: string) | NoHash

  /** `busy` says that another worker holds the lease on submissions when a replay asks for it. */
  datatype Action =
    | ProviderSucceeds(response: string)
    | ProviderFails(code: string)
    | SubmitBegins
    | Sends
    | SubmissionReturns(reply: Reply)
    | PollBegins
    | CanonicalRead(answer: Answer, busy: bool)
    | ReceiptRead(receipt: Receipt)
    | ResultRead(answer: Answer)
    | Tick(time: nat)
    | Crash
  datatype Event = Event(process: nat, action: Action)

  function OrElse<T>(o: Option<T>, d: T): T {
    if o.Some? then o.value else d
  }

  function HashOf(j: Judge): Option<string> {
    match j
    case Tracked(_, _, hash) => Some(hash)
    case Finalized(_, finalHash) => finalHash
    case Failed(_, failedHash) => Some(failedHash)
    case _ => None
  }

  predicate HashFree(j: Judge) {
    j.Persisted? || j.Recovery?
  }

  function Attempts(j: Judge): nat {
    if HashFree(j) then OrElse(j.meta.attempts, 1) else 0
  }

  predicate Terminal(j: Judge) {
    j.Finalized? || j.Failed?
  }

  function WithMeta(meta: Meta, now: nat): Meta {
    Meta(Some(OrElse(meta.attempts, 1)),
         Some(OrElse(meta.firstPersistedAt, now)), Some(OrElse(meta.lastAttemptAt, now)))
  }

  /** ensureRecoveryMetadata: what it leaves stored. */
  function Completed(r: Record, now: nat): Record {
    match r.judge
    case Persisted(fp, meta) => r.(judge := Persisted(fp, WithMeta(meta, now)))
    case Recovery(fp, meta) => r.(judge := Recovery(fp, WithMeta(meta, now)))
    case _ => r
  }

  function Put(s: State, r: Record, poll: Poll): State {
    s.(record := r, poll := poll)
  }

  function ProviderStep(s: State, p: Provider): State {
    if s.record.provider == ProviderPending then s.(record := s.record.(provider := p)) else s
  }

  /** Lines 293-299. */
  function SubmitBegin(c: Config, s: State): State {
    if s.submission == NoSubmission && s.record.provider.ProviderSuccess? && s.record.judge == NotSubmitted then
      var fp := c.fingerprint(s.record.binding, s.record.provider.response);
      s.(record := s.record.(judge := Persisted(fp, Meta(Some(1), Some(s.now), Some(s.now)))),
         submission := AboutToSend, starts := s.starts + 1)
    else s
  }

  function Send(s: State): State {
    if s.submission == AboutToSend then s.(submission := Sending, sends := s.sends + 1) else s
  }

  /** A poll that waits for the process's submission goes on at line 323. */
  function Wake(s: State): State {
    if s.poll == Joining then s.(poll := ReadingAgain(s.record)) else s
  }

  /** Lines 301-303 and 429-431: a hash is stored over whatever record is there. */
  function SubmissionReturn(c: Config, s: State, reply: Reply): State {
    if s.submission != Sending then s
    else if reply == NoHash || !s.record.provider.ProviderSuccess? then Wake(s.(submission := NoSubmission))
    else
      var fp := c.fingerprint(s.record.binding, s.record.provider.response);
      Wake(s.(record := s.record.(judge := Tracked(fp, Submitted, reply.hash)), submission := NoSubmission))
  }

  function PollBegin(s: State): State {
    if s.poll != NoPoll then s
    else if HashFree(s.record.judge) then
      Put(s, Completed(s.record, s.now), ReadingCanonical(Completed(s.record, s.now)))
    else if s.record.judge.Tracked? then s.(poll := ReadingReceipt(s.record))
    else s
  }

  function Begin(s: State, r: Record, fp: string, meta: Meta, stale: bool): State {
    s.(record := r.(judge := Persisted(fp, meta)), submission := AboutToSend, poll := Joining,
       starts := s.starts + 1, stale := s.stale + if stale then 1 else 0)
  }

  /** replayPersistedSubmission: joins the process's own submission, is refused the lease, finds a hash or a
      record given up, or persists one more attempt. A record FINALIZED without a hash passes for one to be
      attempted again, and its counter starts anew. */
  function Replay(s: State, copy: Record, busy: bool): State {
    if s.submission != NoSubmission then s.(poll := Joining)
    else if busy then s.(poll := ReadingAgain(s.record))
    else
      var current := Completed(s.record, s.now);
      match current.judge
      case Persisted(fp, meta) =>
        var next := Meta(Some(meta.attempts.value + 1), meta.firstPersistedAt, Some(s.now));
        Begin(s, current, fp, next, Attempts(copy.judge) != Attempts(s.record.judge))
      case Finalized(fp, None) => Begin(s, current, fp, Meta(Some(2), None, Some(s.now)), true)
      case _ => Put(s, current, ReadingAgain(current))
  }

  /** Lines 328-340: the record is read again; with a hash the receipt is read, without one the run is given
      up when its attempts and its time are used up. */
  function AfterReplay(c: Config, s: State): State {
    match s.record.judge
    case Persisted(fp, meta) =>
      if OrElse(meta.attempts, 1) >= c.maxAttempts && s.now >= OrElse(meta.firstPersistedAt, s.now) + c.recoveryTimeout
      then Put(s, s.record.(judge := Recovery(fp, meta)), NoPoll)
      else s.(poll := NoPoll)
    case judge => s.(poll := if HashOf(judge).Some? then ReadingReceipt(s.record) else NoPoll)
  }

  function Finalize(s: State, r: Record, hash: Option<string>, scorecard: string): State
    requires !r.judge.NotSubmitted?
  {
    Put(s, r.(judge := Finalized(r.judge.fingerprint, hash), scorecard := Some(scorecard)), NoPoll)
  }

  /** Line 321, on the poll's own copy. */
  predicate Due(c: Config, copy: Record, now: nat) {
    copy.judge.Persisted? && Attempts(copy.judge) < c.maxAttempts
    && now >= OrElse(copy.judge.meta.lastAttemptAt, now) + c.replayDelay
  }

  function CanonicalStep(c: Config, s: State, answer: Answer, busy: bool): State {
    if !s.poll.ReadingCanonical? && !s.poll.ReadingAgain? then s
    else
      var copy := s.poll.record;
      match answer
      case Rejected => s.(poll := NoPoll)
      case Valid(scorecard) =>
        if copy.judge.NotSubmitted? then s.(poll := NoPoll) else Finalize(s, copy, None, scorecard)
      case Unknown =>
        if s.poll.ReadingAgain? then AfterReplay(c, s)
        else if !copy.judge.Persisted? then s.(poll := NoPoll)
        else if Due(c, copy, s.now) then Replay(s, copy, busy)
        else AfterReplay(c, s)
  }

  function ReceiptStep(s: State, receipt: Receipt): State {
    if !s.poll.ReadingReceipt? || HashOf(s.poll.record.judge).None? then s
    else
      var r, hash := s.poll.record, HashOf(s.poll.record.judge).value;
      match receipt
      case Malformed => s.(poll := NoPoll)
      case Unfinished(stage) => Put(s, r.(judge := Tracked(r.judge.fingerprint, stage, hash)), NoPoll)
      case ExecutionFailed => Put(s, r.(judge := Failed(r.judge.fingerprint, hash)), NoPoll)
      case ExecutionSucceeded => s.(poll := ReadingResult(r))
  }

  function ResultStep(s: State, answer: Answer): State {
    if !s.poll.ReadingResult? || HashOf(s.poll.record.judge).None? then s
    else if answer.Valid? then Finalize(s, s.poll.record, HashOf(s.poll.record.judge), answer.scorecard)
    else s.(poll := NoPoll)
  }

  /** One step; an action that does not apply changes nothing. */
  function Next(c: Config, s: State, a: Action): State {
    match a
    case ProviderSucceeds(response) => ProviderStep(s, ProviderSuccess(response))
    case ProviderFails(code) => ProviderStep(s, ProviderFailed(code))
    case SubmitBegins => SubmitBegin(c, s)
    case Sends => Send(s)
    case SubmissionReturns(reply) => SubmissionReturn(c, s, reply)
    case PollBegins => PollBegin(s)
    case CanonicalRead(answer, busy) => CanonicalStep(c, s, answer, busy)
    case ReceiptRead(receipt) => ReceiptStep(s, receipt)
    case ResultRead(answer) => ResultStep(s, answer)
    case Tick(time) => s.(now := s.now + time)
    case Crash => s.(submission := NoSubmission, poll := NoPoll)
  }

  const IDLE: Process := Process(NoSubmission, NoPoll)

  function ProcessOf(s: System, w: nat): Process {
    if w in s.processes then s.processes[w] else IDLE
  }

  function View(s: System, w: nat): State {
    State(s.record, ProcessOf(s, w).submission, ProcessOf(s, w).poll, s.now, s.sends, s.starts, s.stale)
  }

  function Step(c: Config, s: System, e: Event): System {
    var t := Next(c, View(s, e.process), e.action);
    System(t.record, s.processes[e.process := Process(t.submission, t.poll)], t.now, t.sends, t.starts, t.stale)
  }

  function Run(c: Config, s: System, events: seq<Event>): System {
    if events == [] then s else Step(c, Run(c, s, events[..|events| - 1]), events[|events| - 1])
  }

  lemma {:induction false} RunConcat(c: Config, s: System, a: seq<Event>, b: seq<Event>)
    ensures Run(c, s, a + b) == Run(c, Run(c, s, a), b)
  {
    if b == [] {
      assert a + b == a;
    } else {
      assert (a + b)[..|a + b| - 1] == a + b[..|b| - 1];
      RunConcat(c, s, a, b[..|b| - 1]);
    }
  }

  /** A run just created, or one left by an earlier release without attempt metadata. */
  predicate Start(c: Config, s: System) {
    && s.processes == map[] && s.record.scorecard == None && s.stale == 0
    && match s.record.judge
       case NotSubmitted => s.sends == s.starts == 0
       case Persisted(fp, meta) =>
         && s.record.provider.ProviderSuccess? && fp == c.fingerprint(s.record.binding, s.record.provider.response)
         && meta == Meta(None, None, None) && s.sends <= s.starts == 1
       case _ => false
  }

  // ---------- what every history keeps, however operations overlap ----------

  /** A record with a submission has its provider's answer and the fingerprint of exactly that submission. */
  predicate Bound(c: Config, r: Record) {
    && !r.judge.NotSubmitted? && r.provider.ProviderSuccess?
    && r.judge.fingerprint == c.fingerprint(r.binding, r.provider.response)
    && (HashFree(r.judge) ==> Attempts(r.judge) >= 1)
  }

  /** A poll's copy is of the same run with the same answer. */
  predicate CopyOf(c: Config, record: Record, copy: Record) {
    Bound(c, copy) && copy.binding == record.binding && copy.provider == record.provider
  }

  predicate PollSound(c: Config, record: Record, poll: Poll) {
    match poll
    case NoPoll => true
    case Joining => Bound(c, record)
    case ReadingCanonical(r) => CopyOf(c, record, r) && HashFree(r.judge)
    case ReadingAgain(r) => CopyOf(c, record, r)
    case ReadingReceipt(r) => CopyOf(c, record, r) && HashOf(r.judge).Some?
    case ReadingResult(r) => CopyOf(c, record, r) && HashOf(r.judge).Some?
  }

  predicate ProcessSound(c: Config, record: Record, p: Process) {
    && PollSound(c, record, p.poll)
    && (p.submission != NoSubmission || p.poll != NoPoll ==> Bound(c, record))
    && (p.poll == Joining ==> p.submission != NoSubmission)
  }

  predicate Sound(c: Config, s: State) {
    (!s.record.judge.NotSubmitted? ==> Bound(c, s.record)) && ProcessSound(c, s.record, Process(s.submission, s.poll))
  }

  /** The binding, a provider's answer and a submission once made are for good. */
  predicate Grows(r: Record, r': Record) {
    && r'.binding == r.binding && (r.provider != ProviderPending ==> r'.provider == r.provider)
    && (!r.judge.NotSubmitted? ==> !r'.judge.NotSubmitted?)
  }

  lemma ReplaySound(c: Config, s: State, copy: Record, busy: bool)
    requires Sound(c, s) && Bound(c, s.record)
    ensures Sound(c, Replay(s, copy, busy)) && Grows(s.record, Replay(s, copy, busy).record)
  {
  }

  lemma CanonicalSound(c: Config, s: State, answer: Answer, busy: bool)
    requires Sound(c, s)
    ensures Sound(c, CanonicalStep(c, s, answer, busy)) && Grows(s.record, CanonicalStep(c, s, answer, busy).record)
  {
    if s.poll.ReadingCanonical? || s.poll.ReadingAgain? { ReplaySound(c, s, s.poll.record, busy); }
  }

  lemma ReceiptSound(c: Config, s: State, a: Action)
    requires Sound(c, s) && (a.ReceiptRead? || a.ResultRead?)
    ensures Sound(c, Next(c, s, a)) && Grows(s.record, Next(c, s, a).record)
  {
  }

  lemma SubmissionSound(c: Config, s: State, a: Action)
    requires Sound(c, s) && (a.SubmitBegins? || a.Sends? || a.SubmissionReturns?)
    ensures Sound(c, Next(c, s, a)) && Grows(s.record, Next(c, s, a).record)
  {
  }

  lemma SoundStep(c: Config, s: State, a: Action)
    requires Sound(c, s)
    ensures Sound(c, Next(c, s, a)) && Grows(s.record, Next(c, s, a).record)
  {
    match a
    case CanonicalRead(answer, busy) => CanonicalSound(c, s, answer, busy);
    case ReceiptRead(_) => ReceiptSound(c, s, a);
    case ResultRead(_) => ReceiptSound(c, s, a);
    case SubmitBegins => SubmissionSound(c, s, a);
    case Sends => SubmissionSound(c, s, a);
    case SubmissionReturns(_) => SubmissionSound(c, s, a);
    case _ =>
  }

  lemma ProcessSoundGrows(c: Config, r: Record, r': Record, p: Process)
    requires ProcessSound(c, r, p) && Grows(r, r') && (!r'.judge.NotSubmitted? ==> Bound(c, r'))
    ensures ProcessSound(c, r', p)
  {
  }

  ghost predicate SystemSound(c: Config, s: System) {
    && (!s.record.judge.NotSubmitted? ==> Bound(c, s.record))
    && forall w :: w in s.processes ==> ProcessSound(c, s.record, s.processes[w])
  }

  lemma SystemStep(c: Config, s: System, e: Event)
    requires SystemSound(c, s)
    ensures SystemSound(c, Step(c, s, e)) && Grows(s.record, Step(c, s, e).record)
  {
    SoundStep(c, View(s, e.process), e.action);
    var t := Step(c, s, e);
    forall w | w in t.processes ensures ProcessSound(c, t.record, t.processes[w]) {
      if w != e.process { ProcessSoundGrows(c, s.record, t.record, s.processes[w]); }
    }
  }

  lemma GrowsOn(a: Record, b: Record, d: Record)
    requires Grows(a, b) && Grows(b, d)
    ensures Grows(a, d)
  {
  }

  lemma {:induction false} HistorySound(c: Config, s: System, events: seq<Event>)
    requires SystemSound(c, s)
    ensures SystemSound(c, Run(c, s, events)) && Grows(s.record, Run(c, s, events).record)
  {
    if events != [] {
      var n := |events| - 1;
      HistorySound(c, s, events[..n]);
      SystemStep(c, Run(c, s, events[..n]), events[n]);
      GrowsOn(s.record, Run(c, s, events[..n]).record, Run(c, s, events).record);
    }
  }

  /** In every history a submission keeps one fingerprint, that of the run's binding and answer. */
  lemma FingerprintFixed(c: Config, s: System, events: seq<Event>, more: seq<Event>)
    requires Start(c, s) && !Run(c, s, events).record.judge.NotSubmitted?
    ensures var before, after := Run(c, s, events).record, Run(c, s, events + more).record;
            && !after.judge.NotSubmitted? && after.judge.fingerprint == before.judge.fingerprint
            && before.provider.ProviderSuccess?
            && before.judge.fingerprint == c.fingerprint(s.record.binding, before.provider.response)
  {
    HistorySound(c, s, events);
    RunConcat(c, s, events, more);
    HistorySound(c, Run(c, s, events), more);
  }

  // ---------- when FINALIZED and FAILED are left ----------

  /** The steps that leave FINALIZED and FAILED: a submission in flight gets its hash, a poll in flight reads an
      unfinished receipt, or a poll whose copy is due for a replay begins one over a record that was FINALIZED
      without a hash. */
  predicate Leaves(c: Config, s: State, a: Action) {
    match a
    case SubmissionReturns(reply) => s.submission == Sending && reply.Hash?
    case ReceiptRead(receipt) => s.poll.ReadingReceipt? && receipt.Unfinished?
    case CanonicalRead(answer, busy) =>
      && s.poll.ReadingCanonical? && answer == Unknown && Due(c, s.poll.record, s.now)
      && s.submission == NoSubmission && !busy && HashOf(s.record.judge).None?
    case _ => false
  }

  lemma LeavesExactly(c: Config, s: State, a: Action)
    requires Sound(c, s) && Terminal(s.record.judge)
    ensures !Terminal(Next(c, s, a).record.judge) <==> Leaves(c, s, a)
  {
  }

  /** In any state of any number of processes, FINALIZED and FAILED are left exactly by one of those steps. */
  lemma LeftExactlyByPut(c: Config, s: System, e: Event)
    requires SystemSound(c, s) && Terminal(s.record.judge)
    ensures !Terminal(Step(c, s, e).record.judge) <==> Leaves(c, View(s, e.process), e.action)
  {
    LeavesExactly(c, View(s, e.process), e.action);
  }

  predicate InFlight(p: Process) {
    p != IDLE
  }

  ghost predicate Settled(c: Config, s: System) {
    SystemSound(c, s) && Terminal(s.record.judge) && forall w :: w in s.processes ==> !InFlight(s.processes[w])
  }

  lemma SettledStep(c: Config, s: System, e: Event)
    requires Settled(c, s)
    ensures Settled(c, Step(c, s, e)) && Step(c, s, e).record == s.record
  {
    SystemStep(c, s, e);
    assert ProcessOf(s, e.process) == IDLE;
  }

  lemma {:induction false} SettledRuns(c: Config, s: System, events: seq<Event>)
    requires Settled(c, s)
    ensures Settled(c, Run(c, s, events)) && Run(c, s, events).record == s.record
  {
    if events != [] {
      var n := |events| - 1;
      SettledRuns(c, s, events[..n]);
      SettledStep(c, Run(c, s, events[..n]), events[n]);
    }
  }

  /** What a process with an operation in flight does to change a settled record. */
  function Change(s: System, w: nat): seq<Event> {
    var p := ProcessOf(s, w);
    var other := if s.record.scorecard == Some("a") then "b" else "a";
    if p.submission == AboutToSend then [Event(w, Sends), Event(w, SubmissionReturns(Hash("h")))]
    else if p.submission == Sending then [Event(w, SubmissionReturns(Hash("h")))]
    else if p.poll.ReadingReceipt? then [Event(w, ReceiptRead(Unfinished(Submitted)))]
    else if p.poll.ReadingResult? then [Event(w, ResultRead(Valid(other)))]
    else [Event(w, CanonicalRead(Valid(other), false))]
  }

  lemma RunOne(c: Config, s: System, a: Event)
    ensures Run(c, s, [a]) == Step(c, s, a)
  {
    assert [a][..0] == [];
  }

  lemma RunTwo(c: Config, s: System, a: Event, b: Event)
    ensures Run(c, s, [a, b]) == Step(c, Step(c, s, a), b)
  {
    assert [a, b][..1] == [a];
    RunOne(c, s, a);
  }

  lemma SubmissionChanges(c: Config, s: System, w: nat)
    requires SystemSound(c, s) && Terminal(s.record.judge) && ProcessOf(s, w).submission != NoSubmission
    ensures Run(c, s, Change(s, w)).record != s.record
  {
    assert ProcessSound(c, s.record, ProcessOf(s, w));
    RunOne(c, s, Event(w, SubmissionReturns(Hash("h"))));
    RunTwo(c, s, Event(w, Sends), Event(w, SubmissionReturns(Hash("h"))));
  }

  lemma PollChanges(c: Config, s: System, w: nat)
    requires SystemSound(c, s) && Terminal(s.record.judge)
    requires ProcessOf(s, w).submission == NoSubmission && ProcessOf(s, w).poll != NoPoll
    ensures Run(c, s, Change(s, w)).record != s.record
  {
    assert ProcessSound(c, s.record, ProcessOf(s, w));
    var e := Change(s, w)[0];
    assert Change(s, w) == [e];
    RunOne(c, s, e);
  }

  /** A FINALIZED or FAILED record can still change exactly when some process has an operation in flight. */
  lemma TerminalChangesExactly(c: Config, s: System)
    requires SystemSound(c, s) && Terminal(s.record.judge)
    ensures (exists events :: Run(c, s, events).record != s.record) <==>
              exists w :: w in s.processes && InFlight(s.processes[w])
  {
    if w :| w in s.processes && InFlight(s.processes[w]) {
      if s.processes[w].submission != NoSubmission { SubmissionChanges(c, s, w); } else { PollChanges(c, s, w); }
    } else {
      forall events ensures Run(c, s, events).record == s.record { SettledRuns(c, s, events); }
    }
  }

  // ---------- how often a run is sent ----------

  /** The processes with a submission that is persisted and not yet sent. */
  function Owing(s: System): set<nat> {
    set w | w in s.processes && s.processes[w].submission == AboutToSend
  }

  lemma OwingStep(c: Config, s: System, e: Event)
    requires s.sends + |Owing(s)| <= s.starts
    ensures Step(c, s, e).sends + |Owing(Step(c, s, e))| <= Step(c, s, e).starts
  {
    var t, v := Step(c, s, e), View(s, e.process);
    var u := Next(c, v, e.action);
    assert t.processes == s.processes[e.process := Process(u.submission, u.poll)];
    OwingCount(c, v, e.action);
    if u.submission == AboutToSend {
      assert Owing(t) == Owing(s) + {e.process};
    } else {
      assert Owing(t) == Owing(s) - {e.process};
    }
    if v.submission != AboutToSend { assert e.process !in Owing(s); } else { assert e.process in Owing(s); }
  }

  /** A step persists, sends or neither. */
  lemma OwingCount(c: Config, s: State, a: Action)
    ensures var t := Next(c, s, a);
            && t.starts == s.starts + (if t.submission == AboutToSend && s.submission != AboutToSend then 1 else 0)
            && t.sends == s.sends + (if t.submission == Sending && s.submission == AboutToSend then 1 else 0)
  {
  }

  /** The starts that the stored attempt counter accounts for, a full round of attempts for each stale start. */
  predicate Accounted(c: Config, r: Record, starts: nat, stale: nat) {
    if r.judge.NotSubmitted? then starts == 0
    else if HashFree(r.judge) then
      starts <= c.maxAttempts * stale + (if Attempts(r.judge) < c.maxAttempts then Attempts(r.judge) else c.maxAttempts)
    else starts <= c.maxAttempts * stale + c.maxAttempts
  }

  lemma MoreStale(max: nat, stale: nat)
    ensures max * (stale + 1) == max * stale + max
  {
  }

  lemma ReplayAccounted(c: Config, s: State, copy: Record, busy: bool)
    requires ValidConfig(c) && Sound(c, s) && Bound(c, s.record) && Accounted(c, s.record, s.starts, s.stale)
    requires Due(c, copy, s.now)
    ensures var t := Replay(s, copy, busy); Accounted(c, t.record, t.starts, t.stale)
  {
    MoreStale(c.maxAttempts, s.stale);
  }

  lemma AccountedStep(c: Config, s: State, a: Action)
    requires ValidConfig(c) && Sound(c, s) && Accounted(c, s.record, s.starts, s.stale)
    ensures var t := Next(c, s, a); Accounted(c, t.record, t.starts, t.stale)
  {
    if a.CanonicalRead? && s.poll.ReadingCanonical? && Due(c, s.poll.record, s.now) {
      ReplayAccounted(c, s, s.poll.record, a.busy);
    }
  }

  ghost predicate Counted(c: Config, s: System) {
    SystemSound(c, s) && s.sends + |Owing(s)| <= s.starts && Accounted(c, s.record, s.starts, s.stale)
  }

  lemma {:induction false} HistoryCounted(c: Config, s: System, events: seq<Event>)
    requires ValidConfig(c) && Start(c, s)
    ensures Counted(c, Run(c, s, events))
  {
    if events == [] {
      assert Owing(s) == {};
    } else {
      var n := |events| - 1;
      var before := Run(c, s, events[..n]);
      HistoryCounted(c, s, events[..n]);
      SystemStep(c, before, events[n]);
      OwingStep(c, before, events[n]);
      AccountedStep(c, View(before, events[n].process), events[n].action);
    }
  }

  /** In every history of any number of processes: every stale start costs at most one more round of attempts;
      and while none has been made, a run is sent at most maxAttempts times and the stored counter covers every
      send. */
  lemma SendsBounded(c: Config, s: System, events: seq<Event>)
    requires ValidConfig(c) && Start(c, s)
    ensures var t := Run(c, s, events);
            && t.sends <= c.maxAttempts * (t.stale + 1)
            && (t.stale == 0 ==> t.sends <= c.maxAttempts)
            && (t.stale == 0 && HashFree(t.record.judge) ==> t.sends <= Attempts(t.record.judge) <= c.maxAttempts)
  {
    HistoryCounted(c, s, events);
    HistoryCapped(c, s, events);
    SendsAccounted(c, Run(c, s, events));
  }

  lemma SendsAccounted(c: Config, t: System)
    requires Counted(c, t)
    ensures t.sends <= c.maxAttempts * (t.stale + 1)
    ensures t.stale == 0 ==> t.sends <= c.maxAttempts
    ensures t.stale == 0 && HashFree(t.record.judge) ==> t.sends <= Attempts(t.record.judge)
  {
    MoreStale(c.maxAttempts, t.stale);
    if t.stale == 0 { assert c.maxAttempts * t.stale == 0; }
  }

  /** The step with which the stored counter passes the limit: a poll begins a replay because its own copy has
      attempts left, when the stored counter has none. */
  predicate Overdraws(c: Config, s: State, a: Action) {
    && a == CanonicalRead(Unknown, false) && s.poll.ReadingCanonical? && Due(c, s.poll.record, s.now)
    && s.submission == NoSubmission && s.record.judge.Persisted? && Attempts(s.record.judge) == c.maxAttempts
  }

  lemma OverdrawsExactly(c: Config, s: State, a: Action)
    requires ValidConfig(c) && Sound(c, s) && Attempts(s.record.judge) <= c.maxAttempts
    ensures Attempts(Next(c, s, a).record.judge) > c.maxAttempts <==> Overdraws(c, s, a)
    ensures Overdraws(c, s, a) ==> Next(c, s, a).stale == s.stale + 1
  {
    if s.poll.ReadingCanonical? { assert Attempts(s.poll.record.judge) >= 1; }
  }

  /** In any state of any number of processes the attempt counter passes its limit exactly by such a step. */
  lemma ExceededExactly(c: Config, s: System, e: Event)
    requires ValidConfig(c) && SystemSound(c, s) && Attempts(s.record.judge) <= c.maxAttempts
    ensures Attempts(Step(c, s, e).record.judge) > c.maxAttempts <==> Overdraws(c, View(s, e.process), e.action)
  {
    OverdrawsExactly(c, View(s, e.process), e.action);
  }

  lemma StaleGrows(c: Config, s: State, a: Action)
    ensures Next(c, s, a).stale >= s.stale
  {
  }

  lemma {:induction false} HistoryCapped(c: Config, s: System, events: seq<Event>)
    requires ValidConfig(c) && Start(c, s)
    ensures Run(c, s, events).stale == 0 ==> Attempts(Run(c, s, events).record.judge) <= c.maxAttempts
  {
    if events != [] {
      var n := |events| - 1;
      var before := Run(c, s, events[..n]);
      HistoryCapped(c, s, events[..n]);
      HistoryCounted(c, s, events[..n]);
      StaleGrows(c, View(before, events[n].process), events[n].action);
      if before.stale == 0 { OverdrawsExactly(c, View(before, events[n].process), events[n].action); }
    }
  }

  // ---------- one poll and one submission at a time ----------

  /** No poll, and no submission, begins while another process has one in flight; a replay that would is refused
      the lease. The leases on polls and submissions see to that while an operation ends within its own. */
  predicate Leased(s: System, e: Event) {
    && (e.action == PollBegins ==> forall w :: w in s.processes && w != e.process ==> s.processes[w].poll == NoPoll)
    && (e.action == SubmitBegins ==> NoOtherSubmission(s, e.process))
    && (e.action.CanonicalRead? && !e.action.busy ==> NoOtherSubmission(s, e.process))
  }

  predicate NoOtherSubmission(s: System, p: nat) {
    forall w :: w in s.processes && w != p ==> s.processes[w].submission == NoSubmission
  }

  ghost predicate OnePollAndSubmission(c: Config, s: System, events: seq<Event>) {
    forall i :: 0 <= i < |events| ==> Leased(Run(c, s, events[..i]), events[i])
  }

  /** The one poll in flight has the stored counter, or a hash has been stored since. */
  predicate Current(record: Record, poll: Poll) {
    poll.ReadingCanonical? ==> record.judge == poll.record.judge || record.judge.Tracked?
  }

  ghost predicate Exclusive(s: System) {
    && s.stale == 0
    && (forall w, v :: w in s.processes && v in s.processes && w != v ==>
          s.processes[w].poll == NoPoll || s.processes[v].poll == NoPoll)
    && (forall w, v :: w in s.processes && v in s.processes && w != v ==>
          s.processes[w].submission == NoSubmission || s.processes[v].submission == NoSubmission)
    && (forall w :: w in s.processes ==> Current(s.record, s.processes[w].poll))
  }

  /** What a step of one process means for the copy a poll of another has. */
  lemma StepCurrent(c: Config, s: State, a: Action, other: Poll)
    requires Sound(c, s) && Current(s.record, other) && PollSound(c, s.record, other)
    requires other.ReadingCanonical? ==> s.poll == NoPoll && a != PollBegins
    ensures Current(Next(c, s, a).record, other)
  {
  }

  lemma OwnCurrent(c: Config, s: State, a: Action)
    requires Sound(c, s) && Current(s.record, s.poll)
    ensures Current(Next(c, s, a).record, Next(c, s, a).poll)
    ensures Next(c, s, a).stale == s.stale
  {
  }

  /** What a step may begin. */
  lemma StepBegins(c: Config, s: State, a: Action)
    ensures s.poll == NoPoll && a != PollBegins ==> Next(c, s, a).poll == NoPoll
    ensures s.submission == NoSubmission && a != SubmitBegins && !(a.CanonicalRead? && !a.busy) ==>
              Next(c, s, a).submission == NoSubmission
  {
  }

  lemma ExclusiveStep(c: Config, s: System, e: Event)
    requires SystemSound(c, s) && Exclusive(s) && Leased(s, e)
    ensures Exclusive(Step(c, s, e))
  {
    var v, t := View(s, e.process), Step(c, s, e);
    OwnCurrent(c, v, e.action);
    StepBegins(c, v, e.action);
    forall w | w in t.processes && w != e.process ensures Current(t.record, t.processes[w].poll) {
      if s.processes[w].poll.ReadingCanonical? { assert v.poll == NoPoll; }
      StepCurrent(c, v, e.action, s.processes[w].poll);
    }
  }

  lemma {:induction false} HistoryExclusive(c: Config, s: System, events: seq<Event>)
    requires Start(c, s) && OnePollAndSubmission(c, s, events)
    ensures SystemSound(c, Run(c, s, events)) && Exclusive(Run(c, s, events))
  {
    if events != [] {
      var n := |events| - 1;
      var front := events[..n];
      assert forall i :: 0 <= i <= n ==> front[..i] == events[..i];
      HistoryExclusive(c, s, front);
      ExclusiveStep(c, Run(c, s, front), events[n]);
      SystemStep(c, Run(c, s, front), events[n]);
    }
  }

  /** With at most one poll and one submission in flight, which may overlap each other, and crashes anywhere, a
      run is sent at most maxAttempts times, and while no hash is known the stored counter covers every send. */
  lemma LeasedSendsBounded(c: Config, s: System, events: seq<Event>)
    requires ValidConfig(c) && Start(c, s) && OnePollAndSubmission(c, s, events)
    ensures var t := Run(c, s, events);
            && t.sends <= c.maxAttempts
            && (HashFree(t.record.judge) ==> t.sends <= Attempts(t.record.judge) <= c.maxAttempts)
  {
    HistoryExclusive(c, s, events);
    SendsBounded(c, s, events);
  }

  // ---------- one operation at a time ----------

  /** No operation begins while another process, or this one, has one in flight. */
  predicate Separate(s: System, e: Event) {
    e.action == SubmitBegins || e.action == PollBegins ==> forall w :: w in s.processes ==> !InFlight(s.processes[w])
  }

  ghost predicate NoOverlap(c: Config, s: System, events: seq<Event>) {
    forall i :: 0 <= i < |events| ==> Separate(Run(c, s, events[..i]), events[i])
  }

  predicate PollSees(record: Record, poll: Poll) {
    match poll
    case ReadingCanonical(r) => r == record && HashFree(r.judge)
    case ReadingAgain(r) => r == record && (HashFree(r.judge) || r.judge.Tracked?)
    case ReadingReceipt(r) => r == record && r.judge.Tracked?
    case ReadingResult(r) => r == record && r.judge.Tracked?
    case Joining => record.judge.Persisted?
    case NoPoll => true
  }

  predicate Coherent(c: Config, s: State) {
    && Sound(c, s) && (s.record.scorecard.Some? <==> s.record.judge.Finalized?)
    && (s.submission != NoSubmission ==> s.record.judge.Persisted? && (s.poll == NoPoll || s.poll == Joining))
    && PollSees(s.record, s.poll)
    && (Terminal(s.record.judge) ==> s.submission == NoSubmission && s.poll == NoPoll)
  }

  lemma CoherentStep(c: Config, s: State, a: Action)
    requires Coherent(c, s)
    requires a == SubmitBegins || a == PollBegins ==> s.submission == NoSubmission && s.poll == NoPoll
    ensures Coherent(c, Next(c, s, a))
  {
    SoundStep(c, s, a);
  }

  /** The one process that works, if any. */
  ghost predicate Alone(c: Config, s: System, w: nat) {
    Coherent(c, View(s, w)) && forall v :: v in s.processes && v != w ==> !InFlight(s.processes[v])
  }

  /** A process with nothing in flight does nothing but begin. */
  lemma IdleStep(c: Config, s: State, a: Action)
    requires s.submission == NoSubmission && s.poll == NoPoll && a != SubmitBegins && a != PollBegins
    ensures Next(c, s, a).submission == NoSubmission && Next(c, s, a).poll == NoPoll
    ensures Next(c, s, a).record.judge == s.record.judge && Next(c, s, a).record.scorecard == s.record.scorecard
    ensures s.record.provider != ProviderPending ==> Next(c, s, a).record == s.record
  {
  }

  lemma OtherCoherent(c: Config, s: State, t: State)
    requires Coherent(c, s) && t.submission == s.submission && t.poll == s.poll
    requires t.record.judge == s.record.judge && t.record.scorecard == s.record.scorecard
    requires t.record.binding == s.record.binding
    requires s.record.provider != ProviderPending ==> t.record == s.record
    ensures Coherent(c, t)
  {
  }

  lemma AloneStep(c: Config, s: System, e: Event, w: nat) returns (w': nat)
    requires Alone(c, s, w) && Separate(s, e)
    ensures Alone(c, Step(c, s, e), w')
  {
    if e.process == w || e.action == SubmitBegins || e.action == PollBegins {
      assert View(s, e.process) == View(s, w);
      CoherentStep(c, View(s, e.process), e.action);
      w' := e.process;
    } else {
      IdleStep(c, View(s, e.process), e.action);
      OtherCoherent(c, View(s, w), View(Step(c, s, e), w));
      w' := w;
    }
  }

  lemma {:induction false} HistoryAlone(c: Config, s: System, events: seq<Event>) returns (w: nat)
    requires Start(c, s) && NoOverlap(c, s, events)
    ensures Alone(c, Run(c, s, events), w)
  {
    if events == [] {
      w := 0;
    } else {
      var n := |events| - 1;
      var front := events[..n];
      assert forall i :: 0 <= i <= n ==> front[..i] == events[..i];
      w := HistoryAlone(c, s, front);
      w := AloneStep(c, Run(c, s, front), events[n], w);
    }
  }

  /** With one operation at a time a scorecard exists exactly when the run is FINALIZED. */
  lemma ScorecardExactly(c: Config, s: System, events: seq<Event>)
    requires Start(c, s) && NoOverlap(c, s, events)
    ensures Run(c, s, events).record.scorecard.Some? <==> Run(c, s, events).record.judge.Finalized?
  {
    var w := HistoryAlone(c, s, events);
  }

  /** What a history of one operation at a time has settled stays settled, however it goes on, overlapping or
      not: a FINALIZED or FAILED run keeps its whole record. */
  lemma SettledStays(c: Config, s: System, events: seq<Event>, more: seq<Event>)
    requires Start(c, s) && NoOverlap(c, s, events) && Terminal(Run(c, s, events).record.judge)
    ensures Run(c, s, events + more).record == Run(c, s, events).record
  {
    var t := Run(c, s, events);
    var w := HistoryAlone(c, s, events);
    HistorySound(c, s, events);
    assert ProcessOf(t, w) == IDLE;
    SettledRuns(c, t, more);
    RunConcat(c, s, events, more);
  }

  // ---------- what goes wrong when operations overlap ----------

  const EXAMPLE: Config := Config(2, 30_000, 600_000, (a, b) => "fp")
  const FRESH: System := System(Record("run", ProviderSuccess("answer"), NotSubmitted, None), map[], 0, 0, 0, 0)
  const SCORED: Action := CanonicalRead(Valid("score"), false)

  /** Process 0 submits, and waits for the transaction hash. */
  const SUBMIT: seq<Event> := [Event(0, SubmitBegins), Event(0, Sends)]

  lemma AfterSubmit()
    ensures var t := Run(EXAMPLE, FRESH, SUBMIT);
            && t.record == FRESH.record.(judge := Persisted("fp", Meta(Some(1), Some(0), Some(0))))
            && t == FRESH.(record := t.record, processes := map[0 := Process(Sending, NoPoll)], sends := 1, starts := 1)
  {
    RunTwo(EXAMPLE, FRESH, Event(0, SubmitBegins), Event(0, Sends));
  }

  /** A submission in flight leaves FINALIZED: the poll finds the result on chain while it still waits. */
  lemma OverlapLeavesFinalized()
    ensures Start(EXAMPLE, FRESH)
    ensures var final := Run(EXAMPLE, FRESH, SUBMIT + [Event(0, PollBegins), Event(0, SCORED)]);
            && final.record.judge == Finalized("fp", None)
            && Run(EXAMPLE, final, [Event(0, SubmissionReturns(Hash("0x1")))]).record
               == Record("run", ProviderSuccess("answer"), Tracked("fp", Submitted, "0x1"), Some("score"))
  {
    AfterSubmit();
    var t := Run(EXAMPLE, FRESH, SUBMIT);
    RunConcat(EXAMPLE, FRESH, SUBMIT, [Event(0, PollBegins), Event(0, SCORED)]);
    RunTwo(EXAMPLE, t, Event(0, PollBegins), Event(0, SCORED));
    var final := Run(EXAMPLE, t, [Event(0, PollBegins), Event(0, SCORED)]);
    RunOne(EXAMPLE, final, Event(0, SubmissionReturns(Hash("0x1"))));
  }

  /** Two processes poll a submitted run, the second after the first one's lease has run out. */
  const TWO_POLLS: seq<Event> := [Event(1, PollBegins), Event(2, PollBegins)]

  const HASHED: seq<Event> := [Event(0, SubmissionReturns(Hash("0x1")))]
  const FINALIZES: seq<Event> := [Event(2, ReceiptRead(ExecutionSucceeded)), Event(2, ResultRead(Valid("score")))]

  lemma AfterHash()
    ensures var t := Run(EXAMPLE, FRESH, SUBMIT + HASHED);
            && t.record == FRESH.record.(judge := Tracked("fp", Submitted, "0x1"))
            && t.processes == map[0 := IDLE]
  {
    AfterSubmit();
    RunConcat(EXAMPLE, FRESH, SUBMIT, HASHED);
    RunOne(EXAMPLE, Run(EXAMPLE, FRESH, SUBMIT), HASHED[0]);
  }

  lemma TwoReceipts(s: System, r: Record)
    requires s.record == r && r.judge.Tracked? && s.processes == map[0 := IDLE]
    ensures var t, waiting := Run(EXAMPLE, s, TWO_POLLS), Process(NoSubmission, ReadingReceipt(r));
            t.record == r && t.processes == map[0 := IDLE, 1 := waiting, 2 := waiting]
  {
    RunTwo(EXAMPLE, s, TWO_POLLS[0], TWO_POLLS[1]);
  }

  lemma FinalizedMeanwhile(s: System, r: Record)
    requires var waiting := Process(NoSubmission, ReadingReceipt(r));
             r.judge.Tracked? && s.processes == map[0 := IDLE, 1 := waiting, 2 := waiting]
    ensures var final := Run(EXAMPLE, s, FINALIZES);
            && final.record.judge == Finalized(r.judge.fingerprint, Some(r.judge.hash))
            && final.record.scorecard == Some("score")
            && (forall w :: w in final.processes ==> final.processes[w].submission == NoSubmission)
            && Run(EXAMPLE, final, [Event(1, ReceiptRead(Unfinished(Pending)))]).record
               == r.(judge := Tracked(r.judge.fingerprint, Pending, r.judge.hash))
  {
    RunTwo(EXAMPLE, s, FINALIZES[0], FINALIZES[1]);
    RunOne(EXAMPLE, Run(EXAMPLE, s, FINALIZES), Event(1, ReceiptRead(Unfinished(Pending))));
  }

  /** A stale poll leaves FINALIZED with no submission in flight, and drops the scorecard: its receipt was not
      finished when it asked. */
  lemma StalePollLeavesFinalized()
    ensures var final := Run(EXAMPLE, FRESH, SUBMIT + HASHED + TWO_POLLS + FINALIZES);
            && final.record.judge == Finalized("fp", Some("0x1")) && final.record.scorecard == Some("score")
            && (forall w :: w in final.processes ==> final.processes[w].submission == NoSubmission)
            && Run(EXAMPLE, final, [Event(1, ReceiptRead(Unfinished(Pending)))]).record
               == Record("run", ProviderSuccess("answer"), Tracked("fp", Pending, "0x1"), None)
  {
    AfterHash();
    var hashed := Run(EXAMPLE, FRESH, SUBMIT + HASHED);
    TwoReceipts(hashed, hashed.record);
    RunConcat(EXAMPLE, FRESH, SUBMIT + HASHED, TWO_POLLS);
    FinalizedMeanwhile(Run(EXAMPLE, hashed, TWO_POLLS), hashed.record);
    RunConcat(EXAMPLE, FRESH, SUBMIT + HASHED + TWO_POLLS, FINALIZES);
  }

  /** The submission's answer is lost with its process, and two processes poll once a replay is due. */
  const LOST: seq<Event> := [Event(0, Crash), Event(0, Tick(30_000))]
  const UNKNOWN: Action := CanonicalRead(Unknown, false)

  /** The record as the submission persisted it. */
  const PERSISTED: Record := FRESH.record.(judge := Persisted("fp", Meta(Some(1), Some(0), Some(0))))

  lemma AfterLoss()
    ensures var t := Run(EXAMPLE, FRESH, SUBMIT + LOST);
            && t.record == PERSISTED && t.now == 30_000 && t.sends == 1
            && ProcessOf(t, 1) == ProcessOf(t, 2) == IDLE
  {
    AfterSubmit();
    RunConcat(EXAMPLE, FRESH, SUBMIT, LOST);
    RunTwo(EXAMPLE, Run(EXAMPLE, FRESH, SUBMIT), LOST[0], LOST[1]);
  }

  lemma BothRead(s: System)
    requires s.record == PERSISTED && ProcessOf(s, 1) == ProcessOf(s, 2) == IDLE
    ensures var t := Run(EXAMPLE, s, TWO_POLLS);
            && t.record == PERSISTED && t.now == s.now && t.sends == s.sends
            && ProcessOf(t, 1) == ProcessOf(t, 2) == Process(NoSubmission, ReadingCanonical(PERSISTED))
  {
    RunTwo(EXAMPLE, s, TWO_POLLS[0], TWO_POLLS[1]);
  }

  lemma TwoReads()
    ensures var t := Run(EXAMPLE, FRESH, SUBMIT + LOST + TWO_POLLS);
            && t.record == PERSISTED && t.now == 30_000 && t.sends == 1
            && ProcessOf(t, 1) == ProcessOf(t, 2) == Process(NoSubmission, ReadingCanonical(PERSISTED))
  {
    AfterLoss();
    BothRead(Run(EXAMPLE, FRESH, SUBMIT + LOST));
    RunConcat(EXAMPLE, FRESH, SUBMIT + LOST, TWO_POLLS);
  }

  /** One replay: begun, sent, and its answer lost. */
  function ReplayOf(w: nat): seq<Event> {
    [Event(w, UNKNOWN), Event(w, Sends)] + [Event(w, SubmissionReturns(NoHash))]
  }

  lemma OneReplay(s: System, w: nat, r: Record, attempts: nat)
    requires ProcessOf(s, w) == Process(NoSubmission, ReadingCanonical(r)) && Due(EXAMPLE, r, s.now)
    requires s.record.judge.Persisted? && s.record.judge.meta.attempts == Some(attempts)
    ensures var t := Run(EXAMPLE, s, ReplayOf(w));
            && t.sends == s.sends + 1 && t.now == s.now
            && t.record.judge.Persisted? && t.record.judge.meta.attempts == Some(attempts + 1)
            && forall v :: v != w ==> ProcessOf(t, v) == ProcessOf(s, v)
  {
    RunConcat(EXAMPLE, s, [Event(w, UNKNOWN), Event(w, Sends)], [Event(w, SubmissionReturns(NoHash))]);
    RunTwo(EXAMPLE, s, Event(w, UNKNOWN), Event(w, Sends));
    RunOne(EXAMPLE, Run(EXAMPLE, s, [Event(w, UNKNOWN), Event(w, Sends)]), Event(w, SubmissionReturns(NoHash)));
  }

  /** With a limit of two a run is sent three times: the first poll replays on a copy made before the second
      poll's replay. */
  lemma StalePollSendsAgain()
    ensures EXAMPLE.maxAttempts == 2
    ensures Run(EXAMPLE, FRESH, SUBMIT + LOST + TWO_POLLS + ReplayOf(2) + ReplayOf(1)).sends == 3
  {
    TwoReads();
    var reading := Run(EXAMPLE, FRESH, SUBMIT + LOST + TWO_POLLS);
    var r := reading.record;
    OneReplay(reading, 2, r, 1);
    OneReplay(Run(EXAMPLE, reading, ReplayOf(2)), 1, r, 2);
    RunConcat(EXAMPLE, FRESH, SUBMIT + LOST + TWO_POLLS, ReplayOf(2));
    RunConcat(EXAMPLE, FRESH, SUBMIT + LOST + TWO_POLLS + ReplayOf(2), ReplayOf(1));
  }

  /** A replay leaves FINALIZED as well: the second poll finds the result, the first begins a replay over it. */
  lemma StaleReplayLeavesFinalized()
    ensures var final := Run(EXAMPLE, FRESH, SUBMIT + LOST + TWO_POLLS + [Event(2, SCORED)]);
            && final.record.judge == Finalized("fp", None)
            && Run(EXAMPLE, final, [Event(1, UNKNOWN)]).record.judge
               == Persisted("fp", Meta(Some(2), None, Some(30_000)))
  {
    TwoReads();
    var reading := Run(EXAMPLE, FRESH, SUBMIT + LOST + TWO_POLLS);
    RunConcat(EXAMPLE, FRESH, SUBMIT + LOST + TWO_POLLS, [Event(2, SCORED)]);
    RunOne(EXAMPLE, reading, Event(2, SCORED));
    RunOne(EXAMPLE, Run(EXAMPLE, reading, [Event(2, SCORED)]), Event(1, UNKNOWN));
  }
}
