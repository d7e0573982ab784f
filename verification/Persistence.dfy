// The transactional arena store: packages/persistence/src/store.ts.

// JSON values and the comparison deepEqual makes of them (store.ts:66-90).
module Payloads {
  import opened Sequences

  datatype Json =
    | Null | Bool(b: bool) | Number(n: int) | Text(text: string) | Items(items: seq<Json>) | Object(fields: seq<Field>)
  datatype Field = Field(name: string, value: Json)

  /** An object has one property of each name, at every depth. */
  predicate Proper(j: Json) {
    match j
    case Items(items) => forall i :: 0 <= i < |items| ==> Proper(items[i])
    case Object(fields) =>
      && (forall i :: 0 <= i < |fields| ==> Proper(fields[i].value))
      && Distinct(Names(fields))
    case _ => true
  }

  /** The place of a name, the number of names when it is not there. */
  function Place(names: seq<string>, name: string): (p: nat)
    ensures p <= |names| && (p < |names| ==> names[p] == name)
    ensures p == |names| ==> name !in names
  {
    if names == [] || names[0] == name then 0 else 1 + Place(names[1..], name)
  }

  predicate Distinct(names: seq<string>) {
    forall i, k :: 0 <= i < k < |names| ==> names[i] != names[k]
  }

  function Names(fields: seq<Field>): (names: seq<string>)
    ensures |names| == |fields|
  {
    seq(|fields|, i requires 0 <= i < |fields| => fields[i].name)
  }

  /** Which payloads are proper: any plain value, and an object of two properties exactly when their names differ and
      their values are proper. */
  lemma ProperExactly(plain: Json, n: string, x: Json, m: string, y: Json)
    requires !plain.Items? && !plain.Object?
    ensures Proper(plain)
    ensures Proper(Object([Field(n, x), Field(m, y)])) <==> n != m && Proper(x) && Proper(y)
  {
    var fields := [Field(n, x), Field(m, y)];
    assert Names(fields)[0] == n && Names(fields)[1] == m;
    assert fields[0].value == x && fields[1].value == y;
  }

  predicate DeepEqual(a: Json, b: Json)
    decreases a
  {
    match (a, b)
    case (Items(x), Items(y)) => |x| == |y| && forall i :: 0 <= i < |x| ==> DeepEqual(x[i], y[i])
    case (Object(f), Object(g)) =>
      |f| == |g| && forall i :: 0 <= i < |f| ==>
        Place(Names(g), f[i].name) < |g| && DeepEqual(f[i].value, g[Place(Names(g), f[i].name)].value)
    case _ => a == b
  }

  /** The value a JSON text stands for: objects are maps. */
  datatype Value = Plain(json: Json) | List(values: seq<Value>) | Record(entries: map<string, Value>)

  function MapOf<V>(names: seq<string>, values: seq<V>): map<string, V>
    requires |names| == |values|
  {
    map name | name in names :: values[Place(names, name)]
  }

  function ValueOf(j: Json): Value {
    match j
    case Items(items) => List(seq(|items|, i requires 0 <= i < |items| => ValueOf(items[i])))
    case Object(fields) => Record(MapOf(Names(fields),
      seq(|fields|, i requires 0 <= i < |fields| => ValueOf(fields[i].value))))
    case _ => Plain(j)
  }

  lemma PlaceOf(names: seq<string>, i: nat)
    requires Distinct(names) && i < |names|
    ensures Place(names, names[i]) == i
  {
  }

  lemma {:induction false} DistinctSet(names: seq<string>)
    requires Distinct(names)
    ensures |set name | name in names| == |names|
  {
    if names != [] {
      var n := |names| - 1;
      DistinctSet(names[..n]);
      assert (set name | name in names) == (set name | name in names[..n]) + {names[n]};
    }
  }

  lemma SameNames(x: seq<string>, y: seq<string>)
    requires Distinct(x) && Distinct(y) && |x| == |y| && forall name :: name in x ==> name in y
    ensures forall name :: name in x <==> name in y
  {
    DistinctSet(x);
    DistinctSet(y);
    var a, b := set name | name in x, set name | name in y;
    SameSize(a, b);
    forall name | name in y ensures name in x {
      assert name in b && name in a;
    }
  }

  lemma MatchUp<V>(x: seq<string>, v: seq<V>, y: seq<string>, w: seq<V>)
    requires |x| == |v| && |y| == |w| && Distinct(x) && Distinct(y) && MapOf(x, v) == MapOf(y, w)
    requires forall i :: 0 <= i < |x| ==> Place(x, x[i]) == i
    ensures |x| == |y| && forall i :: 0 <= i < |x| ==> Place(y, x[i]) < |y| && v[i] == w[Place(y, x[i])]
  {
    assert MapOf(x, v).Keys == set name | name in x;
    assert MapOf(y, w).Keys == set name | name in y;
    DistinctSet(x);
    DistinctSet(y);
    forall i | 0 <= i < |x| ensures Place(y, x[i]) < |y| && v[i] == w[Place(y, x[i])] {
      assert x[i] in MapOf(x, v);
    }
  }

  /** Two maps built from name and value lists are equal exactly when the lists match up by name. */
  lemma MapsEqual<V>(x: seq<string>, v: seq<V>, y: seq<string>, w: seq<V>)
    requires |x| == |v| && |y| == |w| && Distinct(x) && Distinct(y)
    ensures MapOf(x, v) == MapOf(y, w) <==> |x| == |y| && forall i :: 0 <= i < |x| ==>
      Place(y, x[i]) < |y| && v[i] == w[Place(y, x[i])]
  {
    forall i | 0 <= i < |x| ensures Place(x, x[i]) == i { PlaceOf(x, i); }
    if MapOf(x, v) == MapOf(y, w) { MatchUp(x, v, y, w); }
    if |x| == |y| && forall i :: 0 <= i < |x| ==> Place(y, x[i]) < |y| && v[i] == w[Place(y, x[i])] {
      SameNames(x, y);
      forall name | name in x ensures MapOf(x, v)[name] == MapOf(y, w)[name] {
        assert x[Place(x, name)] == name;
      }
    }
  }

  /** Two values compare equal exactly when they stand for the same value, in whatever order their properties come. */
  lemma {:induction false} DeepEqualExactly(a: Json, b: Json)
    requires Proper(a) && Proper(b)
    ensures DeepEqual(a, b) <==> ValueOf(a) == ValueOf(b)
    decreases a
  {
    match (a, b)
    case (Items(x), Items(y)) =>
      forall i | 0 <= i < |x| && i < |y| ensures DeepEqual(x[i], y[i]) <==> ValueOf(x[i]) == ValueOf(y[i]) {
        DeepEqualExactly(x[i], y[i]);
      }
      assert forall i :: 0 <= i < |x| ==> ValueOf(a).values[i] == ValueOf(x[i]);
      assert forall i :: 0 <= i < |y| ==> ValueOf(b).values[i] == ValueOf(y[i]);
    case (Object(f), Object(g)) =>
      forall i, k | 0 <= i < |f| && 0 <= k < |g|
        ensures DeepEqual(f[i].value, g[k].value) <==> ValueOf(f[i].value) == ValueOf(g[k].value)
      {
        DeepEqualExactly(f[i].value, g[k].value);
      }
      var v := seq(|f|, i requires 0 <= i < |f| => ValueOf(f[i].value));
      var w := seq(|g|, i requires 0 <= i < |g| => ValueOf(g[i].value));
      MapsEqual(Names(f), v, Names(g), w);
      assert ValueOf(a) == Record(MapOf(Names(f), v)) && ValueOf(b) == Record(MapOf(Names(g), w));
      forall i | 0 <= i < |f| && Place(Names(g), f[i].name) < |g|
        ensures DeepEqual(f[i].value, g[Place(Names(g), f[i].name)].value) <==> v[i] == w[Place(Names(g), f[i].name)]
      {
        assert v[i] == ValueOf(f[i].value);
      }
      assert forall i :: 0 <= i < |f| ==> Names(f)[i] == f[i].name;
    case _ =>
  }
}

module Tables {
  import opened Wrappers
  import opened Canonical
  import P = Payloads

  datatype Record =
    | Tournament(tournamentId: string, policy: P.Json, state: string, createdAt: int)
    | Entrant(entrantId: string, entrantTournament: string, wallet: string, agentId: string, agents: string,
      state: string, createdAt: int)
    | Match(matchId: string, matchTournament: string, stage: string, round: int, slotA: string, slotB: string,
      state: string, createdAt: int)
    | Attempt(attemptId: string, attemptMatch: string, number: int, topic: string, outputA: string, outputB: string,
      state: string, createdAt: int)
    | Event(eventId: string, kind: string, aggregateId: string, operationKey: string, payload: P.Json, createdAt: int)

  datatype Table = Tournaments | Entrants | Matches | Attempts | Outbox

  function TableOf(r: Record): Table {
    match r case Tournament(_, _, _, _) => Tournaments case Entrant(_, _, _, _, _, _, _) => Entrants
            case Match(_, _, _, _, _, _, _, _) => Matches case Attempt(_, _, _, _, _, _, _, _) => Attempts
            case Event(_, _, _, _, _, _) => Outbox
  }

  /** The key of the record's Map. */
  function MapKey(r: Record): string {
    match r case Tournament(id, _, _, _) => id case Entrant(id, _, _, _, _, _, _) => id case Match(id, _, _, _, _, _, _,
      _) => id
            case Attempt(id, _, _, _, _, _, _, _) => id case Event(_, _, _, key, _, _) => key
  }

  /** The identifier snapshots are sorted by. */
  function Primary(r: Record): string {
    if r.Event? then r.eventId else MapKey(r)
  }

  datatype Unique = OnlyPrimary(id: string) | EntrantKey(tournament: string, wallet: string,
      agent: string) | AttemptKey(match_: string, number: int)

  /** What else no two records of a table may share. */
  function UniqueKey(r: Record): Unique {
    match r
    case Entrant(_, t, w, a, _, _, _) => EntrantKey(t, w, a)
    case Attempt(_, m, n, _, _, _, _, _) => AttemptKey(m, n)
    case _ => OnlyPrimary(Primary(r))
  }

  predicate DigestsValid(r: Record) {
    match r
    case Tournament(id, _, _, _) => IsDigest(Digest(id))
    case Entrant(id, t, _, _, agents, _, _) => IsDigest(Digest(id)) && IsDigest(Digest(t)) && IsDigest(Digest(agents))
    case Match(id, t, _, _, _, _, _, _) => IsDigest(Digest(id)) && IsDigest(Digest(t))
    case Attempt(id, m, _, topic, a, b, _, _) =>
      IsDigest(Digest(id)) && IsDigest(Digest(m)) && IsDigest(Digest(topic)) && IsDigest(Digest(a))
        && IsDigest(Digest(b))
    case Event(id, _, aggregate, _, _, _) => IsDigest(Digest(id)) && IsDigest(Digest(aggregate))
  }

  /** deepEqual on records of one table: field by field, the open-ended one up to the order of its properties. */
  predicate Same(a: Record, b: Record) {
    match (a, b)
    case (Tournament(_, p, _, _), Tournament(_, q, _, _)) => a.(policy := q) == b && P.DeepEqual(p, q)
    case (Event(_, _, _, _, p, _), Event(_, _, _, _, q, _)) => a.(payload := q) == b && P.DeepEqual(p, q)
    case _ => a == b
  }

  /** Each table in the insertion order its Map iterates in. */
  datatype State = State(tournaments: seq<Record>, entrants: seq<Record>, matches: seq<Record>, attempts: seq<Record>,
      outbox: seq<Record>)

  function Rows(s: State, t: Table): seq<Record> {
    match t case Tournaments => s.tournaments case Entrants => s.entrants case Matches => s.matches
            case Attempts => s.attempts case Outbox => s.outbox
  }

  function WithRows(s: State, t: Table, rows: seq<Record>): State {
    match t
    case Tournaments => s.(tournaments := rows)
    case Entrants => s.(entrants := rows)
    case Matches => s.(matches := rows)
    case Attempts => s.(attempts := rows)
    case Outbox => s.(outbox := rows)
  }

  const EMPTY: State := State([], [], [], [], [])

  // ---------- consistency ----------

  predicate RowsConsistent(t: Table, rows: seq<Record>) {
    && (forall i :: 0 <= i < |rows| ==> TableOf(rows[i]) == t && DigestsValid(rows[i]))
    && (forall i, j :: 0 <= i < j < |rows| ==>
      MapKey(rows[i]) != MapKey(rows[j]) && UniqueKey(rows[i]) != UniqueKey(rows[j]))
  }

  /** Every table's primary and composite keys are unique, and its digests well formed. */
  ghost predicate Consistent(s: State) {
    forall t: Table :: RowsConsistent(t, Rows(s, t))
  }

  lemma PrimariesDistinct(t: Table, rows: seq<Record>, i: nat, j: nat)
    requires RowsConsistent(t, rows) && i < j < |rows|
    ensures Primary(rows[i]) != Primary(rows[j])
  {
    assert TableOf(rows[i]) == TableOf(rows[j]) == t;
  }

  // ---------- adding ----------

  /** The place of a key in a table, its length when it is not there. */
  function IndexOf(rows: seq<Record>, key: string): (p: nat)
    ensures p <= |rows| && (p < |rows| ==> MapKey(rows[p]) == key)
    ensures p == |rows| ==> forall i :: 0 <= i < |rows| ==> MapKey(rows[i]) != key
  {
    if rows == [] || MapKey(rows[0]) == key then 0 else 1 + IndexOf(rows[1..], key)
  }

  predicate Taken(rows: seq<Record>, r: Record) {
    exists i :: 0 <= i < |rows| && UniqueKey(rows[i]) == UniqueKey(r)
  }

  /** What adding a record makes of the state; None where the source throws. */
  function Added(s: State, r: Record): Option<State> {
    var rows := Rows(s, TableOf(r));
    var p := IndexOf(rows, MapKey(r));
    if !DigestsValid(r) then None
    else if p < |rows| then if Same(rows[p], r) then Some(s) else None
    else if Taken(rows, r) then None
    else Some(WithRows(s, TableOf(r), rows + [r]))
  }

  // ---------- the five adders, by the fields of their records ----------

  lemma IndexIn(rows: seq<Record>, key: string)
    ensures IndexOf(rows, key) < |rows| <==> exists x :: x in rows && MapKey(x) == key
  {
    if IndexOf(rows, key) < |rows| { assert rows[IndexOf(rows, key)] in rows; }
  }

  /** A record is new when no row has its key, and known when a row of its key is the same record. */
  lemma AddedMeans(s: State, t: Table, r: Record)
    requires t == TableOf(r) && RowsConsistent(t, Rows(s, t))
    ensures var rows := Rows(s, t);
            if !DigestsValid(r) then Added(s, r) == None
            else if exists x :: x in rows && MapKey(x) == MapKey(r) then
              Added(s, r) == if exists x :: x in rows && MapKey(x) == MapKey(r) && Same(x, r) then Some(s) else None
            else Added(s, r) == if exists x :: x in rows && UniqueKey(x) == UniqueKey(r) then None
                                else Some(WithRows(s, t, rows + [r]))
  {
    var rows := Rows(s, t);
    IndexIn(rows, MapKey(r));
    var p := IndexOf(rows, MapKey(r));
    if p < |rows| {
      assert rows[p] in rows;
      forall x | x in rows && MapKey(x) == MapKey(r) ensures x == rows[p] {
        var i :| 0 <= i < |rows| && rows[i] == x;
      }
    } else if Taken(rows, r) {
      var i :| 0 <= i < |rows| && UniqueKey(rows[i]) == UniqueKey(r);
      assert rows[i] in rows;
    }
  }

  lemma TournamentAdded(s: State, r: Record)
    requires r.Tournament? && RowsConsistent(Tournaments, s.tournaments)
    ensures Added(s, r) ==
      if !IsDigest(Digest(r.tournamentId)) then None
      else if exists x :: x in s.tournaments && x.tournamentId == r.tournamentId then
        if exists x :: x in s.tournaments && x.(policy := r.policy) == r && P.DeepEqual(x.policy, r.policy) then Some(s)
        else None
      else Some(s.(tournaments := s.tournaments + [r]))
  {
    AddedMeans(s, Tournaments, r);
  }

  lemma EntrantAdded(s: State, r: Record)
    requires r.Entrant? && RowsConsistent(Entrants, s.entrants)
    ensures Added(s, r) ==
      if !(IsDigest(Digest(r.entrantId)) && IsDigest(Digest(r.entrantTournament)) && IsDigest(Digest(r.agents)))
      then None
      else if exists x :: x in s.entrants && x.entrantId == r.entrantId then if r in s.entrants then Some(s) else None
      else if exists x :: x in s.entrants && x.entrantTournament == r.entrantTournament && x.wallet == r.wallet
                          && x.agentId == r.agentId
      then None
      else Some(s.(entrants := s.entrants + [r]))
  {
    AddedMeans(s, Entrants, r);
  }

  lemma MatchAdded(s: State, r: Record)
    requires r.Match? && RowsConsistent(Matches, s.matches)
    ensures Added(s, r) ==
      if !(IsDigest(Digest(r.matchId)) && IsDigest(Digest(r.matchTournament))) then None
      else if exists x :: x in s.matches && x.matchId == r.matchId then if r in s.matches then Some(s) else None
      else Some(s.(matches := s.matches + [r]))
  {
    AddedMeans(s, Matches, r);
  }

  lemma AttemptAdded(s: State, r: Record)
    requires r.Attempt? && RowsConsistent(Attempts, s.attempts)
    ensures Added(s, r) ==
      if !(IsDigest(Digest(r.attemptId)) && IsDigest(Digest(r.attemptMatch)) && IsDigest(Digest(r.topic))
           && IsDigest(Digest(r.outputA)) && IsDigest(Digest(r.outputB)))
      then None
      else if exists x :: x in s.attempts && x.attemptId == r.attemptId then if r in s.attempts then Some(s) else None
      else if exists x :: x in s.attempts && x.attemptMatch == r.attemptMatch && x.number == r.number then None
      else Some(s.(attempts := s.attempts + [r]))
  {
    AddedMeans(s, Attempts, r);
  }

  lemma EventAdded(s: State, r: Record)
    requires r.Event? && RowsConsistent(Outbox, s.outbox)
    ensures Added(s, r) ==
      if !(IsDigest(Digest(r.eventId)) && IsDigest(Digest(r.aggregateId))) then None
      else if exists x :: x in s.outbox && x.operationKey == r.operationKey then
        if exists x :: x in s.outbox && x.(payload := r.payload) == r && P.DeepEqual(x.payload, r.payload) then Some(s)
        else None
      else if exists x :: x in s.outbox && x.eventId == r.eventId then None
      else Some(s.(outbox := s.outbox + [r]))
  {
    AddedMeans(s, Outbox, r);
  }

  lemma AppendConsistent(t: Table, rows: seq<Record>, r: Record)
    requires RowsConsistent(t, rows) && TableOf(r) == t && DigestsValid(r)
    requires IndexOf(rows, MapKey(r)) == |rows| && !Taken(rows, r)
    ensures RowsConsistent(t, rows + [r])
  {
  }

  lemma OtherRows(s: State, t: Table, rows: seq<Record>, x: Table)
    ensures Rows(WithRows(s, t, rows), x) == if x == t then rows else Rows(s, x)
  {
  }

  lemma AddedConsistent(s: State, r: Record)
    requires Consistent(s) && Added(s, r).Some?
    ensures Consistent(Added(s, r).value)
  {
    var s', t := Added(s, r).value, TableOf(r);
    var rows := Rows(s, t);
    assert RowsConsistent(t, rows);
    if IndexOf(rows, MapKey(r)) == |rows| {
      AppendConsistent(t, rows, r);
      forall x: Table ensures RowsConsistent(x, Rows(s', x)) {
        OtherRows(s, t, rows + [r], x);
        assert RowsConsistent(x, Rows(s, x));
      }
    }
  }

  class ArenaStoreTx {
    var state: State

    constructor (state: State)
      ensures this.state == state
    {
      this.state := state;
    }

    /** The five adders: one search for the record's key, then one for a clash of its other key. */
    method Add(r: Record) returns (ok: bool)
      modifies this
      ensures ok <==> Added(old(state), r).Some?
      ensures state == if ok then Added(old(state), r).value else old(state)
    {
      if !DigestsValid(r) { return false; }
      var rows := Rows(state, TableOf(r));
      var p := IndexOf(rows, MapKey(r));
      if p < |rows| { return Same(rows[p], r); }
      var i := 0;
      while i < |rows|
        invariant 0 <= i <= |rows| && forall k :: 0 <= k < i ==> UniqueKey(rows[k]) != UniqueKey(r)
      {
        if UniqueKey(rows[i]) == UniqueKey(r) { return false; }
        i := i + 1;
      }
      state := WithRows(state, TableOf(r), rows + [r]);
      return true;
    }
  }

  // ---------- transactions ----------

  /** One call of a transaction body: the record it adds, and whether it survives that add throwing. */
  datatype Step = Step(record: Record, caught: bool)

  /** The state after one more call. */
  function Next(before: Option<State>, step: Step): Option<State> {
    if before.None? then None
    else
      var after := Added(before.value, step.record);
      if after.Some? then after else if step.caught then before else None
  }

  /** The staged state after a body's calls; None when one of them throws out of the body. */
  function Staged(s: State, steps: seq<Step>): Option<State> {
    if steps == [] then Some(s) else Next(Staged(s, steps[..|steps| - 1]), steps[|steps| - 1])
  }

  lemma {:induction false} StagedConsistent(s: State, steps: seq<Step>)
    requires Consistent(s) && Staged(s, steps).Some?
    ensures Consistent(Staged(s, steps).value)
  {
    if steps != [] {
      var before := Staged(s, steps[..|steps| - 1]);
      StagedConsistent(s, steps[..|steps| - 1]);
      if Added(before.value, steps[|steps| - 1].record).Some? {
        AddedConsistent(before.value, steps[|steps| - 1].record); }
    }
  }

  lemma {:induction false} StagedFails(s: State, steps: seq<Step>, n: nat)
    requires n <= |steps| && Staged(s, steps[..n]).None?
    ensures Staged(s, steps).None?
    decreases |steps| - n
  {
    if n == |steps| {
      assert steps[..n] == steps;
    } else {
      assert steps[..n + 1][..n] == steps[..n];
      StagedFails(s, steps, n + 1);
    }
  }

  /** What an add does: a new record is appended when its keys are free, an equal one changes nothing,
      and everything else throws. */
  lemma AddedExactly(s: State, r: Record)
    requires Consistent(s)
    ensures var rows := Rows(s, TableOf(r));
            Added(s, r).Some? <==>
              && DigestsValid(r)
              && (forall i :: 0 <= i < |rows| && MapKey(rows[i]) == MapKey(r) ==> Same(rows[i], r))
              && ((exists i :: 0 <= i < |rows| && MapKey(rows[i]) == MapKey(r)) || !exists i ::
                0 <= i < |rows| && UniqueKey(rows[i]) == UniqueKey(r))
  {
    var rows := Rows(s, TableOf(r));
    assert RowsConsistent(TableOf(r), rows);
    var p := IndexOf(rows, MapKey(r));
  }
}

module SnapshotOrder {
  import opened Tables

  /** The order of JavaScript's `<` on strings. */
  predicate Below(a: string, b: string) {
    b != "" && (a == "" || a[0] < b[0] || (a[0] == b[0] && Below(a[1..], b[1..])))
  }

  lemma {:induction false} BelowTotal(a: string, b: string)
    ensures a == b || Below(a, b) || Below(b, a)
    ensures !(Below(a, b) && Below(b, a)) && !Below(a, a)
  {
    if a != "" && b != "" {
      BelowTotal(a[1..], b[1..]);
      if a[0] == b[0] && a[1..] == b[1..] { assert a == [a[0]] + a[1..] == b; }
    }
    if a != "" { BelowTotal(a[1..], a[1..]); }
  }

  lemma {:induction false} BelowTransitive(a: string, b: string, c: string)
    requires Below(a, b) && Below(b, c)
    ensures Below(a, c)
  {
    if a != "" && a[0] == b[0] && b[0] == c[0] { BelowTransitive(a[1..], b[1..], c[1..]); }
  }

  function Insert(r: Record, rows: seq<Record>): seq<Record> {
    if rows == [] || Below(Primary(r), Primary(rows[0])) then [r] + rows else [rows[0]] + Insert(r, rows[1..])
  }

  function SortRows(rows: seq<Record>): seq<Record> {
    if rows == [] then [] else Insert(rows[0], SortRows(rows[1..]))
  }

  function Sorted(s: State): State {
    State(SortRows(s.tournaments), SortRows(s.entrants), SortRows(s.matches), SortRows(s.attempts), SortRows(s.outbox))
  }

  ghost predicate Ascending(rows: seq<Record>) {
    forall i, j :: 0 <= i < j < |rows| ==> Below(Primary(rows[i]), Primary(rows[j]))
  }

  lemma {:induction false} InsertPermutes(r: Record, rows: seq<Record>)
    ensures multiset(Insert(r, rows)) == multiset{r} + multiset(rows)
  {
    if rows != [] && !Below(Primary(r), Primary(rows[0])) {
      InsertPermutes(r, rows[1..]);
      assert rows == [rows[0]] + rows[1..];
    }
  }

  lemma {:induction false} SortPermutes(rows: seq<Record>)
    ensures multiset(SortRows(rows)) == multiset(rows)
  {
    if rows != [] {
      SortPermutes(rows[1..]);
      InsertPermutes(rows[0], SortRows(rows[1..]));
      assert rows == [rows[0]] + rows[1..];
    }
  }

  lemma {:induction false} InsertAscends(r: Record, rows: seq<Record>)
    requires Ascending(rows) && forall i :: 0 <= i < |rows| ==> Primary(rows[i]) != Primary(r)
    ensures Ascending(Insert(r, rows))
  {
    if rows == [] {
    } else if Below(Primary(r), Primary(rows[0])) {
      forall i | 0 < i < |rows| ensures Below(Primary(r), Primary(rows[i])) {
        BelowTransitive(Primary(r), Primary(rows[0]), Primary(rows[i]));
      }
    } else {
      BelowTotal(Primary(r), Primary(rows[0]));
      InsertAscends(r, rows[1..]);
      InsertPermutes(r, rows[1..]);
      var tail := Insert(r, rows[1..]);
      forall i | 0 <= i < |tail| ensures Below(Primary(rows[0]), Primary(tail[i])) {
        assert tail[i] in multiset(tail);
      }
    }
  }

  ghost predicate DistinctPrimaries(rows: seq<Record>) {
    forall i, j :: 0 <= i < j < |rows| ==> Primary(rows[i]) != Primary(rows[j])
  }

  lemma {:induction false} SortAscends(rows: seq<Record>)
    requires DistinctPrimaries(rows)
    ensures Ascending(SortRows(rows))
  {
    if rows != [] {
      SortAscends(rows[1..]);
      SortPermutes(rows[1..]);
      var tail := SortRows(rows[1..]);
      forall i | 0 <= i < |tail| ensures Primary(tail[i]) != Primary(rows[0]) {
        assert tail[i] in multiset(tail) && tail[i] in rows[1..];
      }
      InsertAscends(rows[0], tail);
    }
  }

  lemma SameLeast(a: seq<Record>, b: seq<Record>)
    requires Ascending(a) && Ascending(b) && multiset(a) == multiset(b) && a != [] && b != []
    ensures a[0] == b[0]
  {
    assert a[0] in multiset(a) && b[0] in multiset(b);
    var i :| 0 <= i < |b| && b[i] == a[0];
    var j :| 0 <= j < |a| && a[j] == b[0];
    BelowTotal(Primary(a[0]), Primary(b[0]));
  }

  lemma TailContents(s: seq<Record>)
    requires s != []
    ensures multiset(s[1..]) == multiset(s) - multiset{s[0]}
  {
    assert s == [s[0]] + s[1..];
  }

  /** There is one ascending arrangement of given rows. */
  lemma {:induction false} AscendingUnique(a: seq<Record>, b: seq<Record>)
    requires Ascending(a) && Ascending(b) && multiset(a) == multiset(b)
    ensures a == b
  {
    assert |a| == |multiset(a)| == |multiset(b)| == |b|;
    if a != [] {
      SameLeast(a, b);
      assert a == [a[0]] + a[1..] && b == [b[0]] + b[1..];
      TailContents(a);
      TailContents(b);
      AscendingUnique(a[1..], b[1..]);
    }
  }

  lemma SortIgnoresOrder(t: Table, a: seq<Record>, b: seq<Record>)
    requires RowsConsistent(t, a) && RowsConsistent(t, b) && multiset(a) == multiset(b)
    ensures SortRows(a) == SortRows(b)
  {
    forall i, j | 0 <= i < j < |a| ensures Primary(a[i]) != Primary(a[j]) { PrimariesDistinct(t, a, i, j); }
    forall i, j | 0 <= i < j < |b| ensures Primary(b[i]) != Primary(b[j]) { PrimariesDistinct(t, b, i, j); }
    SortAscends(a);
    SortAscends(b);
    SortPermutes(a);
    SortPermutes(b);
    AscendingUnique(SortRows(a), SortRows(b));
  }

  ghost predicate SameContents(a: State, b: State) {
    forall t: Table :: multiset(Rows(a, t)) == multiset(Rows(b, t))
  }

  /** A snapshot depends on what was inserted, not on the order. */
  lemma SnapshotIgnoresInsertionOrder(a: State, b: State)
    requires Consistent(a) && Consistent(b) && SameContents(a, b)
    ensures Sorted(a) == Sorted(b)
  {
    forall t: Table ensures SortRows(Rows(a, t)) == SortRows(Rows(b, t)) {
      SortIgnoresOrder(t, Rows(a, t), Rows(b, t));
    }
    assert SortRows(Rows(a, Tournaments)) == SortRows(Rows(b, Tournaments))
      && SortRows(Rows(a, Entrants)) == SortRows(Rows(b, Entrants));
    assert SortRows(Rows(a, Matches)) == SortRows(Rows(b, Matches))
      && SortRows(Rows(a, Attempts)) == SortRows(Rows(b, Attempts));
    assert SortRows(Rows(a, Outbox)) == SortRows(Rows(b, Outbox));
  }

  lemma ConsistentIgnoresOrder(t: Table, a: seq<Record>, b: seq<Record>)
    requires RowsConsistent(t, a) && multiset(a) == multiset(b)
    ensures RowsConsistent(t, b)
  {
    forall i | 0 <= i < |b| ensures TableOf(b[i]) == t && DigestsValid(b[i]) {
      assert b[i] in multiset(b) && b[i] in a;
    }
    forall i, j | 0 <= i < j < |b| ensures MapKey(b[i]) != MapKey(b[j]) && UniqueKey(b[i]) != UniqueKey(b[j]) {
      KeysDiffer(t, a, b, i, j);
    }
  }

  lemma KeysDiffer(t: Table, a: seq<Record>, b: seq<Record>, i: nat, j: nat)
    requires RowsConsistent(t, a) && multiset(a) == multiset(b) && i < j < |b|
    ensures MapKey(b[i]) != MapKey(b[j]) && UniqueKey(b[i]) != UniqueKey(b[j])
  {
    Twice(b, i, j);
    assert b[i] in multiset(a) && b[j] in multiset(a);
    var x :| 0 <= x < |a| && a[x] == b[i];
    var y :| 0 <= y < |a| && a[y] == b[j];
    if b[i] == b[j] { Once(t, a, x); }
  }

  lemma Twice(rows: seq<Record>, i: nat, j: nat)
    requires i < j < |rows|
    ensures rows[i] == rows[j] ==> multiset(rows)[rows[i]] >= 2
  {
    assert rows == rows[..i] + [rows[i]] + rows[i + 1..j] + [rows[j]] + rows[j + 1..];
  }

  lemma Once(t: Table, rows: seq<Record>, x: nat)
    requires RowsConsistent(t, rows) && x < |rows|
    ensures multiset(rows)[rows[x]] == 1
  {
    assert rows == rows[..x] + [rows[x]] + rows[x + 1..];
    assert rows[x] !in rows[..x] && rows[x] !in rows[x + 1..];
  }

  lemma SortedConsistent(s: State)
    requires Consistent(s)
    ensures Consistent(Sorted(s)) && SameContents(s, Sorted(s))
  {
    forall t: Table
      ensures RowsConsistent(t, Rows(Sorted(s), t)) && multiset(Rows(s, t)) == multiset(Rows(Sorted(s), t))
    {
      SortPermutes(Rows(s, t));
      assert Rows(Sorted(s), t) == SortRows(Rows(s, t));
      assert RowsConsistent(t, Rows(s, t));
      ConsistentIgnoresOrder(t, Rows(s, t), Rows(Sorted(s), t));
    }
  }
}

module Persistence {
  import opened Wrappers
  import opened Tables
  import opened SnapshotOrder

  class ArenaStore {
    var state: State

    ghost predicate Valid()
      reads this
    {
      Consistent(state)
    }

    constructor ()
      ensures Valid() && state == EMPTY
    {
      state := EMPTY;
    }

    /** The body runs on a staged copy; `throws` says it throws after its last call. Either the whole
        staged state is committed or the store is as it was. */
    method Transact(steps: seq<Step>, throws: bool) returns (committed: bool)
      requires Valid()
      modifies this
      ensures Valid()
      ensures committed <==> !throws && Staged(old(state), steps).Some?
      ensures state == if committed then Staged(old(state), steps).value else old(state)
    {
      var tx := new ArenaStoreTx(state);
      var i := 0;
      while i < |steps|
        invariant 0 <= i <= |steps| && fresh(tx) && state == old(state)
        invariant Staged(state, steps[..i]) == Some(tx.state)
      {
        assert steps[..i + 1][..i] == steps[..i];
        var ok := tx.Add(steps[i].record);
        if !ok && !steps[i].caught {
          StagedFails(state, steps, i + 1);
          return false;
        }
        i := i + 1;
      }
      assert steps[..|steps|] == steps;
      if throws { return false; }
      StagedConsistent(state, steps);
      state := tx.state;
      return true;
    }

    /** Every table sorted by primary identifier. */
    method Snapshot() returns (snapshot: State)
      requires Valid()
      ensures snapshot == Sorted(state)
    {
      snapshot := Sorted(state);
    }
  }

  // ---------- restoring ----------

  function Steps(rows: seq<Record>): (steps: seq<Step>)
    ensures |steps| == |rows|
  {
    seq(|rows|, i requires 0 <= i < |rows| => Step(rows[i], false))
  }

  method UniqueRows(rows: seq<Record>) returns (ok: bool)
    ensures ok <==> forall i, j :: 0 <= i < j < |rows| ==>
      MapKey(rows[i]) != MapKey(rows[j]) && UniqueKey(rows[i]) != UniqueKey(rows[j])
  {
    var keys: set<string>, uniques: set<Unique> := {}, {};
    var i := 0;
    while i < |rows|
      invariant 0 <= i <= |rows|
      invariant forall k :: k in keys <==> exists j :: 0 <= j < i && MapKey(rows[j]) == k
      invariant forall u :: u in uniques <==> exists j :: 0 <= j < i && UniqueKey(rows[j]) == u
      invariant forall j, k :: 0 <= j < k < i ==>
        MapKey(rows[j]) != MapKey(rows[k]) && UniqueKey(rows[j]) != UniqueKey(rows[k])
    {
      if MapKey(rows[i]) in keys || UniqueKey(rows[i]) in uniques { return false; }
      keys, uniques := keys + {MapKey(rows[i])}, uniques + {UniqueKey(rows[i])};
      i := i + 1;
    }
    return true;
  }

  lemma {:induction false} StagedConcat(s: State, a: seq<Step>, b: seq<Step>)
    ensures Staged(s, a + b) == if Staged(s, a).None? then None else Staged(Staged(s, a).value, b)
  {
    if b == [] {
      assert a + b == a;
    } else {
      assert (a + b)[..|a + b| - 1] == a + b[..|b| - 1];
      StagedConcat(s, a, b[..|b| - 1]);
    }
  }

  lemma PrefixConsistent(t: Table, rows: seq<Record>, n: nat)
    requires RowsConsistent(t, rows) && n < |rows|
    ensures RowsConsistent(t, rows[..n])
    ensures IndexOf(rows[..n], MapKey(rows[n])) == n && !Taken(rows[..n], rows[n])
  {
  }

  lemma StagedSnoc(s: State, steps: seq<Step>, last: Step)
    ensures Staged(s, steps + [last]) == Next(Staged(s, steps), last)
  {
    assert (steps + [last])[..|steps|] == steps;
  }

  lemma AddedNext(s: State, t: Table, rows: seq<Record>, n: nat)
    requires n < |rows| && RowsConsistent(t, rows)
    ensures Added(WithRows(s, t, rows[..n]), rows[n]) == Some(WithRows(s, t, rows[..n + 1]))
  {
    PrefixConsistent(t, rows, n);
    OtherRows(s, t, rows[..n], t);
    assert rows[..n + 1] == rows[..n] + [rows[n]];
    assert DigestsValid(rows[n]) && TableOf(rows[n]) == t;
  }

  /** Adding consistent rows to an empty table stores them all, in order. */
  lemma {:induction false} StageTable(s: State, t: Table, rows: seq<Record>)
    requires Rows(s, t) == [] && RowsConsistent(t, rows)
    ensures Staged(s, Steps(rows)) == Some(WithRows(s, t, rows))
  {
    if rows == [] {
      assert WithRows(s, t, []) == s;
    } else {
      var n := |rows| - 1;
      PrefixConsistent(t, rows, n);
      StageTable(s, t, rows[..n]);
      AddedNext(s, t, rows, n);
      StagedSnoc(s, Steps(rows[..n]), Step(rows[n], false));
      assert Steps(rows) == Steps(rows[..n]) + [Step(rows[n], false)] && rows[..n + 1] == rows;
    }
  }

  const TABLES: seq<Table> := [Tournaments, Entrants, Matches, Attempts, Outbox]

  /** The calls that restore the given tables, in turn. */
  function TableSteps(s: State, tables: seq<Table>): seq<Step> {
    if tables == [] then []
    else TableSteps(s, tables[..|tables| - 1]) + Steps(Rows(s, tables[|tables| - 1]))
  }

  function Only(s: State, tables: seq<Table>): State {
    State(
      if Tournaments in tables then s.tournaments else [], if Entrants in tables then s.entrants else [],
      if Matches in tables then s.matches else [], if Attempts in tables then s.attempts else [],
      if Outbox in tables then s.outbox else [])
  }

  lemma OnlyNext(s: State, tables: seq<Table>, t: Table)
    requires t !in tables
    ensures Rows(Only(s, tables), t) == []
    ensures WithRows(Only(s, tables), t, Rows(s, t)) == Only(s, tables + [t])
  {
  }

  lemma StageMore(start: State, prefix: seq<Step>, before: State, t: Table, rows: seq<Record>)
    requires Staged(start, prefix) == Some(before) && Rows(before, t) == [] && RowsConsistent(t, rows)
    ensures Staged(start, prefix + Steps(rows)) == Some(WithRows(before, t, rows))
  {
    StagedConcat(start, prefix, Steps(rows));
    StageTable(before, t, rows);
  }

  predicate DistinctTables(tables: seq<Table>) {
    forall i, j :: 0 <= i < j < |tables| ==> tables[i] != tables[j]
  }

  lemma {:induction false} StageTables(start: State, s: State, tables: seq<Table>)
    requires start == EMPTY && Consistent(s) && DistinctTables(tables)
    ensures Staged(start, TableSteps(s, tables)) == Some(Only(s, tables))
  {
    if tables != [] {
      var front, t := tables[..|tables| - 1], tables[|tables| - 1];
      assert tables == front + [t] && t !in front;
      OnlyNext(s, front, t);
      StageTables(start, s, front);
      StageMore(start, TableSteps(s, front), Only(s, front), t, Rows(s, t));
    }
  }

  lemma {:induction false} StagedDigests(s: State, steps: seq<Step>)
    requires Staged(s, steps).Some?
    ensures forall i :: 0 <= i < |steps| && !steps[i].caught ==> DigestsValid(steps[i].record)
  {
    if steps != [] {
      var front, last := steps[..|steps| - 1], steps[|steps| - 1];
      assert steps == front + [last];
      StagedSnoc(s, front, last);
      StagedDigests(s, front);
    }
  }

  /** The record types of the five arrays. */
  ghost predicate Typed(s: State) {
    forall t: Table, i :: 0 <= i < |Rows(s, t)| ==> TableOf(Rows(s, t)[i]) == t
  }

  predicate RowsDistinct(rows: seq<Record>) {
    forall i, j :: 0 <= i < j < |rows| ==>
      MapKey(rows[i]) != MapKey(rows[j]) && UniqueKey(rows[i]) != UniqueKey(rows[j])
  }

  lemma StagedRowsValid(start: State, prefix: seq<Step>, rows: seq<Record>)
    requires Staged(start, prefix + Steps(rows)).Some?
    ensures Staged(start, prefix).Some? && forall i :: 0 <= i < |rows| ==> DigestsValid(rows[i])
  {
    StagedConcat(start, prefix, Steps(rows));
    StagedDigests(Staged(start, prefix).value, Steps(rows));
    forall i | 0 <= i < |rows| ensures DigestsValid(rows[i]) {
      assert Steps(rows)[i] == Step(rows[i], false);
    }
  }

  lemma TableStepsSnoc(s: State, tables: seq<Table>) returns (front: seq<Table>, last: Table)
    requires tables != []
    ensures tables == front + [last] && TableSteps(s, tables) == TableSteps(s, front) + Steps(Rows(s, last))
  {
    front, last := tables[..|tables| - 1], tables[|tables| - 1];
  }

  lemma {:induction false} StagedTablesValid(start: State, s: State, tables: seq<Table>, t: Table)
    requires Staged(start, TableSteps(s, tables)).Some? && t in tables
    ensures forall i :: 0 <= i < |Rows(s, t)| ==> DigestsValid(Rows(s, t)[i])
    decreases |tables|
  {
    var front, last := TableStepsSnoc(s, tables);
    StagedRowsValid(start, TableSteps(s, front), Rows(s, last));
    if t != last { StagedTablesValid(start, s, front, t); }
  }

  /** A store is restored exactly from the consistent snapshots, and then holds the snapshot's rows. */
  method FromSnapshot(snapshot: State) returns (store: Option<ArenaStore>)
    requires Typed(snapshot)
    ensures store.Some? <==> Consistent(snapshot)
    ensures store.Some? ==> fresh(store.value) && store.value.Valid() && store.value.state == snapshot
  {
    var unique := RejectDuplicates(snapshot);
    if !unique { return None; }
    var restored := new ArenaStore();
    var committed := restored.Transact(TableSteps(snapshot, TABLES), false);
    RestoredExactly(snapshot);
    return if committed then Some(restored) else None;
  }

  method RejectDuplicates(s: State) returns (ok: bool)
    ensures ok <==> forall t: Table :: RowsDistinct(Rows(s, t))
  {
    var i := 0;
    while i < |TABLES|
      invariant 0 <= i <= |TABLES| && forall j :: 0 <= j < i ==> RowsDistinct(Rows(s, TABLES[j]))
    {
      ok := UniqueRows(Rows(s, TABLES[i]));
      if !ok {
        assert !RowsDistinct(Rows(s, TABLES[i]));
        return;
      }
      i := i + 1;
    }
    forall t: Table ensures RowsDistinct(Rows(s, t)) {
      var j := TablePlace(t);
      assert RowsDistinct(Rows(s, TABLES[j]));
    }
    ok := true;
  }

  function TablePlace(t: Table): (i: nat)
    ensures i < |TABLES| && TABLES[i] == t
  {
    match t case Tournaments => 0 case Entrants => 1 case Matches => 2 case Attempts => 3 case Outbox => 4
  }

  lemma RestoredConsistent(s: State)
    requires Typed(s) && forall t: Table :: RowsDistinct(Rows(s, t))
    requires Staged(EMPTY, TableSteps(s, TABLES)).Some?
    ensures Consistent(s)
  {
    forall t: Table ensures RowsConsistent(t, Rows(s, t)) {
      var i := TablePlace(t);
      assert t in TABLES by { assert TABLES[i] == t; }
      StagedTablesValid(EMPTY, s, TABLES, t);
      assert RowsDistinct(Rows(s, t));
    }
  }

  lemma OnlyAll(s: State)
    ensures Only(s, TABLES) == s
  {
    assert TABLES[0] == Tournaments && TABLES[1] == Entrants && TABLES[2] == Matches && TABLES[3] == Attempts
      && TABLES[4] == Outbox;
  }

  lemma StageAll(s: State)
    requires Consistent(s)
    ensures Staged(EMPTY, TableSteps(s, TABLES)) == Some(s)
  {
    StageTables(EMPTY, s, TABLES);
    OnlyAll(s);
  }

  lemma RestoredExactly(s: State)
    requires Typed(s) && forall t: Table :: RowsDistinct(Rows(s, t))
    ensures Staged(EMPTY, TableSteps(s, TABLES)).Some? <==> Consistent(s)
    ensures Consistent(s) ==> Staged(EMPTY, TableSteps(s, TABLES)) == Some(s)
  {
    if Staged(EMPTY, TableSteps(s, TABLES)).Some? { RestoredConsistent(s); }
    if Consistent(s) { StageAll(s); }
  }

  /** A snapshot of a store can always be restored, and the restored store has the same snapshot. */
  lemma RoundTrip(s: State)
    requires Consistent(s)
    ensures Typed(Sorted(s)) && Consistent(Sorted(s)) && Sorted(Sorted(s)) == Sorted(s)
  {
    SortedConsistent(s);
    SnapshotIgnoresInsertionOrder(s, Sorted(s));
    forall t: Table, i | 0 <= i < |Rows(Sorted(s), t)| ensures TableOf(Rows(Sorted(s), t)[i]) == t {
      assert RowsConsistent(t, Rows(Sorted(s), t));
    }
  }
}
