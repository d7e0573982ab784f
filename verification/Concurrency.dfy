// The bounded scheduler and the per-signer submission lanes: packages/operations/src/concurrency.ts.
// A method is what one caller does between two awaits. A ticket stands for a caller, or for the promise
// it waits on: the caller may go on once its ticket is granted (scheduler) or the one before it is
// released (lanes).

module Concurrency {
  import opened Wrappers
  import opened Canonical

  class BoundedExecutionScheduler {
    const limit: nat
    var active: nat
    var waiters: seq<nat>
    /** Every caller in order of arrival, those granted a slot in order, and those holding one. */
    ghost var arrived: seq<nat>
    ghost var granted: seq<nat>
    ghost var holders: set<nat>

    /** No more holders than slots, nobody waits while a slot is free, and slots go out first come first served. */
    ghost predicate Valid()
      reads this
    {
      && 1 <= limit <= 30
      && active == |holders| <= limit
      && (waiters != [] ==> active == limit)
      && granted + waiters == arrived
      && (forall i, j :: 0 <= i < j < |arrived| ==> arrived[i] != arrived[j])
      && (forall t :: t in holders ==> t in granted)
    }

    constructor (limit: nat)
      requires 1 <= limit <= 30
      ensures Valid() && this.limit == limit && arrived == [] && holders == {}
    {
      this.limit := limit;
      active, waiters, arrived, granted, holders := 0, [], [], [], {};
    }

    /** True when the caller goes on at once, false when it waits. */
    method Acquire(ticket: nat) returns (immediate: bool)
      requires Valid() && ticket !in arrived
      modifies this
      ensures Valid() && arrived == old(arrived) + [ticket]
      ensures immediate <==> old(active) < limit
      ensures granted == old(granted) + (if immediate then [ticket] else [])
      ensures holders == old(holders) + (if immediate then {ticket} else {})
    {
      arrived := arrived + [ticket];
      if active < limit {
        assert ticket !in holders;
        active := active + 1;
        granted, holders := granted + [ticket], holders + {ticket};
        return true;
      }
      waiters := waiters + [ticket];
      return false;
    }

    /** The slot of a holder that is done passes to the longest waiter, if there is one. */
    method Release(ticket: nat)
      requires Valid() && ticket in holders
      modifies this
      ensures Valid() && arrived == old(arrived)
      ensures old(waiters) == [] ==> holders == old(holders) - {ticket} && granted == old(granted)
      ensures old(waiters) != [] ==>
        holders == old(holders) - {ticket} + {old(waiters)[0]} && granted == old(granted) + [old(waiters)[0]]
    {
      if waiters != [] {
        var next := waiters[0];
        assert arrived[|granted|] == next;
        assert forall k :: 0 <= k < |granted| ==> granted[k] == arrived[k];
        assert next !in holders;
        assert granted + [next] + waiters[1..] == granted + waiters;
        waiters := waiters[1..];
        granted, holders := granted + [next], holders - {ticket} + {next};
      } else {
        active := active - 1;
        holders := holders - {ticket};
      }
    }

    /** A caller is granted only after everyone who came before it. */
    lemma FirstComeFirstServed(i: nat, j: nat)
      requires Valid() && i < j < |arrived| && arrived[j] in granted
      ensures arrived[i] in granted
    {
      var k :| 0 <= k < |granted| && granted[k] == arrived[j];
      assert arrived[k] == granted[k];
      assert arrived[i] == granted[i];
    }
  }

  // ---------- lanes ----------

  datatype Network = Arc | GenLayer
  datatype Lane = Lane(network: Network, chainId: int, signer: string)

  function NetworkText(n: Network): string {
    match n case Arc => "ARC" case GenLayer => "GENLAYER"
  }

  predicate IsAddress(s: string) {
    |s| == 42 && s[..2] == "0x" && forall i :: 2 <= i < 42 ==> '0' <= s[i] <= '9' || 'a' <= s[i] <= 'f'
  }

  const COLON: char := ':'

  predicate IsSpace(c: char) {
    c == ' ' || c == '\t' || c == '\n' || c == '\r'
  }

  function TrimStart(s: string): string {
    if s != "" && IsSpace(s[0]) then TrimStart(s[1..]) else s
  }

  function TrimEnd(s: string): string {
    if s != "" && IsSpace(s[|s| - 1]) then TrimEnd(s[..|s| - 1]) else s
  }

  /** The signer without the white space around it, in lower case. */
  function Signer(lane: Lane): string {
    Lower(TrimEnd(TrimStart(lane.signer)))
  }

  /** None where the source throws. */
  function LaneKey(lane: Lane): Option<string> {
    if lane.chainId <= 0 || !IsAddress(Signer(lane)) then None
    else Some(NetworkText(lane.network) + [COLON] + (Decimal(lane.chainId) + [COLON] + Signer(lane)))
  }

  const SPACES: string := " \t\n\r"
  const HEX: string := "0123456789abcdef"

  /** What is cut off is white space, and what is left neither begins nor ends with any. */
  lemma {:induction false} TrimStartExactly(s: string) returns (cut: string)
    ensures s == cut + TrimStart(s) && (forall c :: c in cut ==> c in SPACES)
    ensures TrimStart(s) != "" ==> TrimStart(s)[0] !in SPACES
  {
    if s != "" && s[0] in SPACES {
      var rest := TrimStartExactly(s[1..]);
      cut := [s[0]] + rest;
    } else {
      cut := "";
    }
  }

  lemma {:induction false} TrimEndExactly(s: string) returns (cut: string)
    ensures s == TrimEnd(s) + cut && (forall c :: c in cut ==> c in SPACES)
    ensures TrimEnd(s) != "" ==> TrimEnd(s)[|TrimEnd(s)| - 1] !in SPACES
  {
    if s != "" && s[|s| - 1] in SPACES {
      var rest := TrimEndExactly(s[..|s| - 1]);
      cut := rest + [s[|s| - 1]];
    } else {
      cut := "";
    }
  }

  /** A lane has a key exactly on a positive chain and for a signer of 0x and 40 hexadecimal digits. */
  lemma LaneKeyGiven(lane: Lane)
    ensures LaneKey(lane).Some? <==>
              && lane.chainId >= 1 && |Signer(lane)| == 42 && Signer(lane)[0] == '0' && Signer(lane)[1] == 'x'
              && forall c :: c in Signer(lane)[2..] ==> c in HEX
  {
    var s := Signer(lane);
    assert forall c: char :: c in HEX <==> '0' <= c <= '9' || 'a' <= c <= 'f';
    if |s| == 42 { assert forall i :: 2 <= i < 42 ==> s[i] == s[2..][i - 2] && s[i] in s[2..]; }
  }

  lemma {:induction false} DecimalDigits(n: nat)
    ensures Without(Decimal(n), COLON)
  {
    if n >= 10 { DecimalDigits(n / 10); }
  }

  /** Two lanes share a key exactly when network, chain and signer agree, whatever case the signer is written in. */
  lemma LaneKeyExactly(a: Lane, b: Lane)
    requires LaneKey(a).Some? && LaneKey(b).Some?
    ensures LaneKey(a) == LaneKey(b) <==>
              a.network == b.network && a.chainId == b.chainId && Signer(a) == Signer(b)
  {
    DecimalDigits(a.chainId);
    DecimalDigits(b.chainId);
    DecimalRoundTrip(a.chainId);
    DecimalRoundTrip(b.chainId);
    if LaneKey(a) == LaneKey(b) {
      var restA, restB := Decimal(a.chainId) + [COLON] + Signer(a),
        Decimal(b.chainId) + [COLON] + Signer(b);
      SplitAt(COLON, NetworkText(a.network), restA, NetworkText(b.network), restB);
      assert |NetworkText(Arc)| == 3 && |NetworkText(GenLayer)| == 8;
      SplitAt(COLON, Decimal(a.chainId), Signer(a), Decimal(b.chainId), Signer(b));
    }
  }

  datatype Phase = Waiting | Sending | Released
  datatype Entry = Entry(state: nat, previous: Option<nat>, phase: Phase)
  /** A lane's state object; its identity is its place in the table of all states ever made. */
  datatype LaneState = LaneState(key: string, queued: nat, tail: Option<nat>)

  class InMemoryTransactionSubmissionCoordinator {
    var lanes: map<string, nat>
    var states: seq<LaneState>
    /** A submission's ticket is its place here, so tickets grow in order of arrival. */
    var entries: seq<Entry>
    /** The tickets of each state in order of arrival, and how many of them are released. */
    ghost var queues: seq<seq<nat>>
    ghost var finished: seq<nat>

    constructor ()
      ensures Valid() && entries == [] && lanes == map[]
    {
      lanes, states, entries, queues, finished := map[], [], [], [], [];
    }

    ghost predicate Valid()
      reads this
    {
      Fits(lanes, states, entries, queues, finished) && Busy(lanes, states)
    }

    /** The first part of submit, up to `await previous`. */
    method Arrive(lane: Lane) returns (ticket: Option<nat>)
      requires Valid()
      modifies this
      ensures Valid()
      ensures ticket.None? <==> LaneKey(lane).None?
      ensures ticket.None? ==> lanes == old(lanes) && states == old(states) && entries == old(entries)
      ensures ticket.Some? ==>
        && ticket == Some(|old(entries)|) && |entries| == |old(entries)| + 1
          && entries[..|old(entries)|] == old(entries)
        && KeyOf(states, entries, ticket.value) == LaneKey(lane) && entries[ticket.value].phase == Waiting
    {
      var key := LaneKey(lane);
      if key.None? { return None; }
      if key.value !in lanes { Open(key.value); }
      Enqueue(lanes[key.value]);
      return Some(|entries| - 1);
    }

    /** A lane without a state gets a fresh one. */
    method Open(key: string)
      requires Fits(lanes, states, entries, queues, finished) && key !in lanes
      modifies `lanes, `states, `queues, `finished
      ensures Fits(lanes, states, entries, queues, finished)
      ensures states == old(states) + [LaneState(key, 0, None)] && lanes == old(lanes)[key := |old(states)|]
    {
      NewLane(lanes, states, entries, queues, finished, key);
      lanes := lanes[key := |states|];
      states := states + [LaneState(key, 0, None)];
      queues, finished := queues + [[]], finished + [0];
    }

    method Enqueue(st: nat)
      requires Fits(lanes, states, entries, queues, finished)
      requires st < |states| && states[st].key in lanes && lanes[states[st].key] == st
      modifies `states, `entries, `queues
      ensures Fits(lanes, states, entries, queues, finished)
      ensures entries == old(entries) + [Entry(st, old(states)[st].tail, Waiting)]
      ensures states == old(states)[st := old(states)[st].(queued := old(states)[st].queued + 1,
        tail := Some(|old(entries)|))]
    {
      var state, t := states[st], |entries|;
      NewTicket(lanes, states, entries, queues, finished, st);
      entries := entries + [Entry(st, state.tail, Waiting)];
      states := states[st := state.(queued := state.queued + 1, tail := Some(t))];
      queues := queues[st := queues[st] + [t]];
    }

    /** The wait ends when the submission before it is released; the send is then in flight. */
    method Start(ticket: nat) returns (started: bool)
      requires Valid() && ticket < |entries| && entries[ticket].phase == Waiting
      modifies `entries
      ensures Valid()
      ensures started <==> Free(old(entries), ticket)
      ensures entries == if started then old(entries)[ticket := old(entries)[ticket].(phase := Sending)]
        else old(entries)
    {
      var previous := entries[ticket].previous;
      if previous.Some? && (previous.value >= |entries| || entries[previous.value].phase != Released) { return false; }
      StartFits(lanes, states, entries, queues, finished, ticket);
      entries := entries[ticket := entries[ticket].(phase := Sending)];
      return true;
    }

    /** The finally block, after the send has ended either way; an idle lane is dropped. */
    method Finish(ticket: nat)
      requires Valid() && ticket < |entries| && entries[ticket].phase == Sending
      modifies this
      ensures Valid()
      ensures entries == old(entries)[ticket := old(entries)[ticket].(phase := Released)]
    {
      var st := entries[ticket].state;
      FinishFits(lanes, states, entries, queues, finished, ticket);
      states := states[st := states[st].(queued := states[st].queued - 1)];
      entries := entries[ticket := entries[ticket].(phase := Released)];
      finished := finished[st := finished[st] + 1];
      if states[st].queued == 0 && states[st].key in lanes && lanes[states[st].key] == st {
        lanes := lanes - {states[st].key};
      }
    }

    /** Per lane at most one send is in flight. */
    lemma OneInFlight(t: nat, u: nat)
      requires Valid() && t < |entries| && u < |entries|
      requires entries[t].phase == Sending && entries[u].phase == Sending
        && KeyOf(states, entries, t) == KeyOf(states, entries, u)
      ensures t == u
    {
      assert EarlierDone(states, entries, t, u) && EarlierDone(states, entries, u, t);
    }

    /** A lane with work always has a submission that is in flight or free to go: no lane is stuck. */
    lemma NeverStuck(key: string)
      requires Valid() && key in lanes
      ensures exists t :: 0 <= t < |entries| && KeyOf(states, entries, t) == Some(key) &&
                (entries[t].phase == Sending || (entries[t].phase == Waiting && Free(entries, t)))
    {
      var st := lanes[key];
      assert QueueFits(states, entries, queues, finished, st) && states[st].queued > 0;
      var p := finished[st];
      assert PlaceFits(entries, queues[st], finished[st], st, p);
      var t := queues[st][p];
      if p > 0 { assert PlaceFits(entries, queues[st], finished[st], st, p - 1); }
      assert KeyOf(states, entries, t) == Some(key);
    }
  }

  function KeyOf(states: seq<LaneState>, entries: seq<Entry>, t: nat): Option<string> {
    if t < |entries| && entries[t].state < |states| then Some(states[entries[t].state].key) else None
  }

  predicate Free(entries: seq<Entry>, t: nat) {
    t < |entries| && (entries[t].previous.Some? ==>
      entries[t].previous.value < |entries| && entries[entries[t].previous.value].phase == Released)
  }

  /** The ticket at place p of a queue waits for the one at place p - 1; the first `done` are released. */
  predicate PlaceFits(entries: seq<Entry>, queue: seq<nat>, done: nat, st: nat, p: nat)
    requires p < |queue|
  {
    && queue[p] < |entries| && entries[queue[p]].state == st
    && entries[queue[p]].previous == (if p == 0 then None else Some(queue[p - 1]))
    && (p > 0 ==> queue[p - 1] < queue[p])
    && (entries[queue[p]].phase == Released <==> p < done)
    && (entries[queue[p]].phase == Sending ==> p == done)
  }

  ghost predicate QueueFits(states: seq<LaneState>, entries: seq<Entry>, queues: seq<seq<nat>>, finished: seq<nat>,
      st: nat)
    requires |queues| == |finished| == |states| && st < |states|
  {
    && finished[st] <= |queues[st]| && states[st].queued == |queues[st]| - finished[st]
    && states[st].tail == (if queues[st] == [] then None else Some(queues[st][|queues[st]| - 1]))
    && forall p :: 0 <= p < |queues[st]| ==> PlaceFits(entries, queues[st], finished[st], st, p)
  }

  ghost predicate QueuesFit(states: seq<LaneState>, entries: seq<Entry>, queues: seq<seq<nat>>, finished: seq<nat>) {
    && |queues| == |finished| == |states|
    && forall st :: 0 <= st < |states| ==> QueueFits(states, entries, queues, finished, st)
  }

  ghost predicate EntriesFit(states: seq<LaneState>, entries: seq<Entry>, queues: seq<seq<nat>>) {
    |queues| == |states| && forall t :: 0 <= t < |entries| ==>
      entries[t].state < |states| && t in queues[entries[t].state]
  }

  /** A lane points at a state of its own key, and every state with work is the one its lane points at:
      two states of one key never both have some. */
  ghost predicate LanesFit(lanes: map<string, nat>, states: seq<LaneState>) {
    && (forall key :: key in lanes ==> lanes[key] < |states| && states[lanes[key]].key == key)
    && (forall st :: 0 <= st < |states| && states[st].queued > 0 ==>
      states[st].key in lanes && lanes[states[st].key] == st)
  }

  ghost predicate Busy(lanes: map<string, nat>, states: seq<LaneState>) {
    forall key :: key in lanes ==> lanes[key] < |states| && states[lanes[key]].queued > 0
  }

  predicate EarlierDone(states: seq<LaneState>, entries: seq<Entry>, t: nat, u: nat) {
    t < u < |entries| && KeyOf(states, entries, t) == KeyOf(states, entries, u) && entries[u].phase != Waiting ==>
      entries[t].phase == Released
  }

  /** A submission has started only after every earlier one of its lane has ended. */
  ghost predicate InOrder(states: seq<LaneState>, entries: seq<Entry>) {
    forall t, u :: 0 <= t < u < |entries| ==> EarlierDone(states, entries, t, u)
  }

  ghost predicate Fits(lanes: map<string, nat>, states: seq<LaneState>, entries: seq<Entry>, queues: seq<seq<nat>>,
      finished: seq<nat>) {
    QueuesFit(states, entries, queues, finished) && EntriesFit(states, entries, queues) && LanesFit(lanes, states)
      && InOrder(states, entries)
  }

  lemma NewLane(lanes: map<string, nat>, states: seq<LaneState>, entries: seq<Entry>, queues: seq<seq<nat>>,
      finished: seq<nat>, key: string)
    requires Fits(lanes, states, entries, queues, finished) && key !in lanes
    ensures Fits(lanes[key := |states|], states + [LaneState(key, 0, None)], entries, queues + [[]], finished + [0])
  {
    var states', queues', finished' := states + [LaneState(key, 0, None)], queues + [[]], finished + [0];
    forall st | 0 <= st < |states'| ensures QueueFits(states', entries, queues', finished', st) {
      if st < |states| { assert QueueFits(states, entries, queues, finished, st); }
    }
    forall t, u | 0 <= t < u < |entries| ensures EarlierDone(states', entries, t, u) {
      assert EarlierDone(states, entries, t, u);
    }
  }

  lemma NewTicket(lanes: map<string, nat>, states: seq<LaneState>, entries: seq<Entry>, queues: seq<seq<nat>>,
      finished: seq<nat>, st: nat)
    requires Fits(lanes, states, entries, queues, finished)
    requires st < |states| && states[st].key in lanes && lanes[states[st].key] == st
    ensures Fits(lanes, states[st := states[st].(queued := states[st].queued + 1, tail := Some(|entries|))],
                 entries + [Entry(st, states[st].tail, Waiting)], queues[st := queues[st] + [|entries|]], finished)
  {
    var states' := states[st := states[st].(queued := states[st].queued + 1, tail := Some(|entries|))];
    var entries' := entries + [Entry(st, states[st].tail, Waiting)];
    var queues' := queues[st := queues[st] + [|entries|]];
    forall x | 0 <= x < |states'| ensures QueueFits(states', entries', queues', finished, x) {
      assert QueueFits(states, entries, queues, finished, x);
      forall p | 0 <= p < |queues'[x]| ensures PlaceFits(entries', queues'[x], finished[x], x, p) {
        if p < |queues[x]| {
          assert PlaceFits(entries, queues[x], finished[x], x, p);
        } else if p > 0 {
          assert PlaceFits(entries, queues[x], finished[x], x, p - 1);
        }
      }
    }
    forall t, u | 0 <= t < u < |entries'| ensures EarlierDone(states', entries', t, u) {
      if u < |entries| { assert EarlierDone(states, entries, t, u); }
    }
    assert queues'[st][|queues[st]|] == |entries|;
  }

  lemma {:induction false} Increasing(entries: seq<Entry>, queue: seq<nat>, done: nat, st: nat, p: nat, q: nat)
    requires p < q < |queue| && forall i :: 0 <= i < |queue| ==> PlaceFits(entries, queue, done, st, i)
    ensures queue[p] < queue[q]
  {
    assert PlaceFits(entries, queue, done, st, q);
    if p < q - 1 { Increasing(entries, queue, done, st, p, q - 1); }
  }

  /** A submission that is free to go is the first unreleased one of its state, and all before it in its lane
      are released. */
  lemma FreeIsFirst(lanes: map<string, nat>, states: seq<LaneState>, entries: seq<Entry>, queues: seq<seq<nat>>,
      finished: seq<nat>, ticket: nat) returns (p: nat)
    requires Fits(lanes, states, entries, queues, finished)
    requires ticket < |entries| && entries[ticket].phase != Released && Free(entries, ticket)
    ensures var st := entries[ticket].state; p < |queues[st]| && queues[st][p] == ticket && p == finished[st]
    ensures forall t :: 0 <= t < ticket && KeyOf(states, entries, t) == KeyOf(states, entries, ticket) ==>
      entries[t].phase == Released
  {
    var st := entries[ticket].state;
    assert QueueFits(states, entries, queues, finished, st);
    p :| 0 <= p < |queues[st]| && queues[st][p] == ticket;
    assert PlaceFits(entries, queues[st], finished[st], st, p);
    if p > 0 { assert PlaceFits(entries, queues[st], finished[st], st, p - 1); }
    forall t | 0 <= t < ticket && KeyOf(states, entries, t) == KeyOf(states, entries, ticket)
      ensures entries[t].phase == Released
    {
      var x := entries[t].state;
      assert QueueFits(states, entries, queues, finished, x);
      var q :| 0 <= q < |queues[x]| && queues[x][q] == t;
      assert PlaceFits(entries, queues[x], finished[x], x, q);
      if x == st {
        if p < q { Increasing(entries, queues[st], finished[st], st, p, q); }
      }
    }
  }

  lemma StartFits(lanes: map<string, nat>, states: seq<LaneState>, entries: seq<Entry>, queues: seq<seq<nat>>,
      finished: seq<nat>, ticket: nat)
    requires Fits(lanes, states, entries, queues, finished)
    requires ticket < |entries| && entries[ticket].phase == Waiting && Free(entries, ticket)
    ensures Fits(lanes, states, entries[ticket := entries[ticket].(phase := Sending)], queues, finished)
  {
    var place := FreeIsFirst(lanes, states, entries, queues, finished, ticket);
    var entries' := entries[ticket := entries[ticket].(phase := Sending)];
    forall x | 0 <= x < |states| ensures QueueFits(states, entries', queues, finished, x) {
      assert QueueFits(states, entries, queues, finished, x);
      forall p | 0 <= p < |queues[x]| ensures PlaceFits(entries', queues[x], finished[x], x, p) {
        assert PlaceFits(entries, queues[x], finished[x], x, p);
        SamePlace(entries, queues, finished, x, p, place, ticket);
      }
    }
    forall t, u | 0 <= t < u < |entries'| ensures EarlierDone(states, entries', t, u) {
      assert EarlierDone(states, entries, t, u);
    }
  }

  /** A ticket has one place in one queue. */
  lemma SamePlace(entries: seq<Entry>, queues: seq<seq<nat>>, finished: seq<nat>, x: nat, p: nat, place: nat,
      ticket: nat)
    requires |queues| == |finished| && x < |queues| && p < |queues[x]|
    requires ticket < |entries| && entries[ticket].state < |queues| && place < |queues[entries[ticket].state]|
    requires queues[entries[ticket].state][place] == ticket
    requires forall i :: 0 <= i < |queues[x]| ==> PlaceFits(entries, queues[x], finished[x], x, i)
    ensures queues[x][p] == ticket ==> x == entries[ticket].state && p == place
  {
    assert PlaceFits(entries, queues[x], finished[x], x, p);
    if x == entries[ticket].state {
      if p < place { Increasing(entries, queues[x], finished[x], x, p, place); }
      if place < p { Increasing(entries, queues[x], finished[x], x, place, p); }
    }
  }

  lemma FinishFits(lanes: map<string, nat>, states: seq<LaneState>, entries: seq<Entry>, queues: seq<seq<nat>>,
      finished: seq<nat>, ticket: nat)
    requires Fits(lanes, states, entries, queues, finished)
    requires ticket < |entries| && entries[ticket].phase == Sending
    ensures var st := entries[ticket].state;
            && states[st].queued > 0
            && Fits(lanes, states[st := states[st].(queued := states[st].queued - 1)],
              entries[ticket := entries[ticket].(phase := Released)],
                    queues, finished[st := finished[st] + 1])
  {
    var st := entries[ticket].state;
    assert QueueFits(states, entries, queues, finished, st);
    var place :| 0 <= place < |queues[st]| && queues[st][place] == ticket;
    assert PlaceFits(entries, queues[st], finished[st], st, place);
    var states' := states[st := states[st].(queued := states[st].queued - 1)];
    var entries' := entries[ticket := entries[ticket].(phase := Released)];
    var finished' := finished[st := finished[st] + 1];
    forall x | 0 <= x < |states| ensures QueueFits(states', entries', queues, finished', x) {
      assert QueueFits(states, entries, queues, finished, x);
      forall p | 0 <= p < |queues[x]| ensures PlaceFits(entries', queues[x], finished'[x], x, p) {
        assert PlaceFits(entries, queues[x], finished[x], x, p);
        SamePlace(entries, queues, finished, x, p, place, ticket);
      }
    }
    forall t, u | 0 <= t < u < |entries'| ensures EarlierDone(states', entries', t, u) {
      assert EarlierDone(states, entries, t, u);
    }
  }
}
