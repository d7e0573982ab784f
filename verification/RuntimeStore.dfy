// The shared runtime tables: packages/persistence/src/sqlite-runtime.ts. Each table is a map, each
// transaction one atomic method; identifiers are taken to pass requireIdentifier.

module RuntimeStore {
  import opened Wrappers

  datatype Key = Key(namespace: string, key: string)
  datatype Json = Text(text: string) | Items(items: seq<Json>) | Object(fields: seq<(string, Json)>) | Other
  datatype Lease = Lease(fingerprint: string, owner: string, expiresAt: nat)
  datatype Claim = Claimed | Busy

  const MAX_SAFE: int := 0x1F_FFFF_FFFF_FFFF

  // ---------- purge ----------

  /** Whether an identifier is a string value somewhere in the payload (property names are not values). */
  predicate References(value: Json, ids: set<string>) {
    match value
    case Text(text) => text in ids
    case Items(items) => exists i :: 0 <= i < |items| && References(items[i], ids)
    case Object(fields) => exists i :: 0 <= i < |fields| && References(fields[i].1, ids)
    case Other => false
  }

  /** What there is at a place of a payload: an element of an array, or the value of a property. */
  predicate ChildAt(value: Json, i: nat, child: Json) {
    || (value.Items? && i < |value.items| && child == value.items[i])
    || (value.Object? && i < |value.fields| && child == value.fields[i].1)
  }

  /** The text is at this path of the payload. */
  ghost predicate Occurs(value: Json, path: seq<nat>, text: string)
    decreases |path|
  {
    if path == [] then value == Text(text)
    else exists child :: ChildAt(value, path[0], child) && Occurs(child, path[1..], text)
  }

  lemma OccursBelow(value: Json, i: nat, child: Json, path: seq<nat>, text: string)
    requires ChildAt(value, i, child) && Occurs(child, path, text)
    ensures Occurs(value, [i] + path, text)
  {
    assert ([i] + path)[1..] == path;
  }

  lemma {:induction false} ReferenceAt(value: Json, ids: set<string>) returns (path: seq<nat>, text: string)
    requires References(value, ids)
    ensures text in ids && Occurs(value, path, text)
  {
    match value
    case Text(t) =>
      path, text := [], t;
    case Items(items) =>
      var i :| 0 <= i < |items| && References(items[i], ids);
      path, text := ReferenceAt(items[i], ids);
      OccursBelow(value, i, items[i], path, text);
      path := [i] + path;
    case Object(fields) =>
      var i :| 0 <= i < |fields| && References(fields[i].1, ids);
      path, text := ReferenceAt(fields[i].1, ids);
      OccursBelow(value, i, fields[i].1, path, text);
      path := [i] + path;
  }

  lemma {:induction false} OccurrenceReferences(value: Json, ids: set<string>, path: seq<nat>, text: string)
    requires text in ids && Occurs(value, path, text)
    ensures References(value, ids)
    decreases |path|
  {
    if path != [] {
      var child :| ChildAt(value, path[0], child) && Occurs(child, path[1..], text);
      OccurrenceReferences(child, ids, path[1..], text);
    }
  }

  /** One of the identifiers is the whole text at this path. */
  ghost predicate IdAt(value: Json, ids: set<string>, path: seq<nat>, text: string) {
    text in ids && Occurs(value, path, text)
  }

  /** A payload references an identifier exactly when one is the whole text at some path of it, through arrays and
      property values alike. */
  lemma ReferencesExactly(value: Json, ids: set<string>)
    ensures References(value, ids) <==> exists path, text :: IdAt(value, ids, path, text)
  {
    if References(value, ids) {
      var path, text := ReferenceAt(value, ids);
      assert IdAt(value, ids, path, text);
    }
    if path, text :| IdAt(value, ids, path, text) { OccurrenceReferences(value, ids, path, text); }
  }

  lemma {:induction false} ReferencesMonotone(value: Json, ids: set<string>, more: set<string>)
    requires ids <= more && References(value, ids)
    ensures References(value, more)
  {
    match value
    case Text(_) =>
    case Items(items) =>
      var i :| 0 <= i < |items| && References(items[i], ids);
      ReferencesMonotone(items[i], ids, more);
    case Object(fields) =>
      var i :| 0 <= i < |fields| && References(fields[i].1, ids);
      ReferencesMonotone(fields[i].1, ids, more);
    case Other =>
  }

  predicate Hit(records: map<Key, Json>, k: Key, connected: set<string>)
    requires k in records
  {
    k.key in connected || References(records[k], connected)
  }

  /** A set of identifiers holding the given ones and the key of every record it hits. */
  ghost predicate Closed(records: map<Key, Json>, ids: set<string>, connected: set<string>) {
    ids <= connected && forall k :: k in records && Hit(records, k, connected) ==> k.key in connected
  }

  ghost predicate LeastClosed(records: map<Key, Json>, ids: set<string>, connected: set<string>) {
    Closed(records, ids, connected) && forall other :: Closed(records, ids, other) ==> connected <= other
  }

  /** The least closed set is one set: it does not depend on how it was found. */
  lemma LeastClosedUnique(records: map<Key, Json>, ids: set<string>, a: set<string>, b: set<string>)
    requires LeastClosed(records, ids, a) && LeastClosed(records, ids, b)
    ensures a == b
  {
    assert a <= b && b <= a;
  }

  ghost predicate BelowClosed(records: map<Key, Json>, ids: set<string>, connected: set<string>) {
    forall other :: Closed(records, ids, other) ==> connected <= other
  }

  lemma HitStaysBelow(records: map<Key, Json>, ids: set<string>, connected: set<string>, k: Key)
    requires BelowClosed(records, ids, connected) && k in records && Hit(records, k, connected)
    ensures BelowClosed(records, ids, connected + {k.key})
  {
    forall other | Closed(records, ids, other)
      ensures connected + {k.key} <= other
    {
      if References(records[k], connected) { ReferencesMonotone(records[k], connected, other); }
    }
  }

  /** The loop of lines 157-169, over the rows in any order: it ends, with the least closed set of
      identifiers and exactly the records that set hits. */
  method Connect(records: map<Key, Json>, rows: seq<Key>, ids: set<string>)
      returns (selected: set<Key>, connected: set<string>)
    requires forall k :: k in rows <==> k in records
    ensures LeastClosed(records, ids, connected)
    ensures selected == set k | k in records && Hit(records, k, connected)
  {
    selected, connected := {}, ids;
    var found := true;
    while found
      invariant selected <= records.Keys && BelowClosed(records, ids, connected)
      invariant ids <= connected && forall k :: k in selected ==> k.key in connected
      invariant !found ==> forall k :: k in records && k !in selected ==> !Hit(records, k, connected)
      decreases records.Keys - selected, found
    {
      ghost var before := selected;
      found := false;
      var i := 0;
      while i < |rows|
        invariant 0 <= i <= |rows|
        invariant before <= selected <= records.Keys && BelowClosed(records, ids, connected)
        invariant ids <= connected && forall k :: k in selected ==> k.key in connected
        invariant if found then before < selected else selected == before
        invariant !found ==> forall j :: 0 <= j < i && rows[j] !in selected ==> !Hit(records, rows[j], connected)
      {
        var row := rows[i];
        if row !in selected && Hit(records, row, connected) {
          HitStaysBelow(records, ids, connected, row);
          selected := selected + {row};
          connected := connected + {row.key};
          found := true;
        }
        i := i + 1;
      }
    }
    forall k | k in records && Hit(records, k, connected)
      ensures k in selected
    {
    }
  }

  // ---------- the tables ----------

  datatype Purged = Purged(records: nat, counters: nat, leases: nat)

  function ClaimOutcome(leases: map<Key, Lease>, k: Key, fingerprint: string, now: nat, leaseMs: nat): Result<Claim> {
    if leaseMs < 1 || now + leaseMs > MAX_SAFE then Failure("lease time is invalid")
    else if k in leases && leases[k].fingerprint != fingerprint then Failure("conflicting operation lease")
    else if k in leases && leases[k].expiresAt > now then Success(Busy)
    else Success(Claimed)
  }

  class Runtime {
    var records: map<Key, Json>
    var counters: map<Key, int>
    var leases: map<Key, Lease>

    constructor ()
      ensures records == map[] && counters == map[] && leases == map[]
    {
      records, counters, leases := map[], map[], map[];
    }

    method Put(k: Key, value: Json)
      modifies `records
      ensures records == old(records)[k := value]
    {
      records := records[k := value];
    }

    /** Of all writers of one key, only the first stores. */
    method PutIfAbsent(k: Key, value: Json) returns (stored: bool)
      modifies `records
      ensures stored == (k !in old(records))
      ensures records == if stored then old(records)[k := value] else old(records)
    {
      stored := k !in records;
      if stored { records := records[k := value]; }
    }

    method Increment(k: Key, amount: int) returns (r: Result<int>)
      modifies `counters
      ensures var next := (if k in old(counters) then old(counters)[k] else 0) + amount;
              if -MAX_SAFE <= amount <= MAX_SAFE && -MAX_SAFE <= next <= MAX_SAFE then r == Success(next)
                && counters == old(counters)[k := next]
              else r.Failure? && counters == old(counters)
    {
      if !(-MAX_SAFE <= amount <= MAX_SAFE) { return Failure("counter amount is invalid"); }
      var next := (if k in counters then counters[k] else 0) + amount;
      if !(-MAX_SAFE <= next <= MAX_SAFE) { return Failure("counter exceeds safe integer range"); }
      counters := counters[k := next];
      r := Success(next);
    }

    /** Claims when there is no lease of that fingerprint still running; a lease of another
        fingerprint refuses even when it has run out. */
    method ClaimLease(k: Key, fingerprint: string, owner: string, now: nat, leaseMs: nat) returns (r: Result<Claim>)
      modifies `leases
      ensures r == ClaimOutcome(old(leases), k, fingerprint, now, leaseMs)
      ensures r.Failure? <==>
        leaseMs < 1 || now + leaseMs > MAX_SAFE || (k in old(leases) && old(leases)[k].fingerprint != fingerprint)
      ensures r == Success(Busy) <==>
        && 1 <= leaseMs && now + leaseMs <= MAX_SAFE
        && k in old(leases) && old(leases)[k].fingerprint == fingerprint && now < old(leases)[k].expiresAt
      ensures leases == if r == Success(Claimed) then old(leases)[k := Lease(fingerprint, owner, now + leaseMs)]
        else old(leases)
    {
      if leaseMs < 1 || now + leaseMs > MAX_SAFE { return Failure("lease time is invalid"); }
      if k in leases && leases[k].fingerprint != fingerprint { return Failure("conflicting operation lease"); }
      if k in leases && leases[k].expiresAt > now { return Success(Busy); }
      leases := leases[k := Lease(fingerprint, owner, now + leaseMs)];
      return Success(Claimed);
    }

    /** Deletes the lease only when the caller owns it. */
    method ReleaseLease(k: Key, owner: string) returns (released: bool)
      modifies `leases
      ensures released == (k in old(leases) && old(leases)[k].owner == owner)
      ensures leases == if released then old(leases) - {k} else old(leases)
    {
      released := k in leases && leases[k].owner == owner;
      if released { leases := leases - {k}; }
    }

    /** Removes exactly what the least closed set of identifiers connects; see SurvivorsMentionNothing. */
    method PurgeIdentifiers(rows: seq<Key>, ids: set<string>) returns (r: Result<Purged>, ghost connected: set<string>)
      requires forall k :: k in rows <==> k in records
      modifies this
      ensures r.Failure? <==> ids == {}
      ensures r.Failure? ==> unchanged(this)
      ensures r.Success? ==>
        && LeastClosed(old(records), ids, connected)
        && records == KeptRecords(old(records), connected)
        && counters == KeptCounters(old(counters), connected)
        && leases == KeptLeases(old(leases), connected)
        && r.value.records + |records| == |old(records)| && r.value.counters + |counters| == |old(counters)|
        && r.value.leases + |leases| == |old(leases)|
    {
      connected := {};
      if ids == {} { return Failure("purge identifiers are invalid"), {}; }
      var selected, all := Connect(records, rows, ids);
      connected := all;
      var goneCounters := set k | k in counters && k.key in all;
      var goneLeases := set k | k in leases && (k.key in all || leases[k].fingerprint in all);
      assert records - selected == KeptRecords(records, all);
      assert counters - goneCounters == KeptCounters(counters, all);
      assert leases - goneLeases == KeptLeases(leases, all);
      RemovedCount(records, selected);
      RemovedCount(counters, goneCounters);
      RemovedCount(leases, goneLeases);
      r := Success(Purged(|selected|, |goneCounters|, |goneLeases|));
      records := records - selected;
      counters := counters - goneCounters;
      leases := leases - goneLeases;
    }
  }

  function KeptRecords(records: map<Key, Json>, connected: set<string>): map<Key, Json> {
    map k | k in records && !Hit(records, k, connected) :: records[k]
  }

  function KeptCounters(counters: map<Key, int>, connected: set<string>): map<Key, int> {
    map k | k in counters && k.key !in connected :: counters[k]
  }

  function KeptLeases(leases: map<Key, Lease>, connected: set<string>): map<Key, Lease> {
    map k | k in leases && k.key !in connected && leases[k].fingerprint !in connected :: leases[k]
  }

  /** No surviving row mentions a purged identifier as its key, a string value of its payload or
      its fingerprint; and nothing unconnected was lost: a record goes exactly when every closed
      set holds its key. */
  lemma SurvivorsMentionNothing(records: map<Key, Json>, counters: map<Key, int>, leases: map<Key, Lease>,
      ids: set<string>, connected: set<string>)
    requires LeastClosed(records, ids, connected)
    ensures forall k :: k in KeptRecords(records, connected) ==>
      k.key !in connected && !References(KeptRecords(records, connected)[k], connected)
    ensures forall k :: k in KeptCounters(counters, connected) ==> k.key !in connected
    ensures forall k :: k in KeptLeases(leases, connected) ==>
      k.key !in connected && KeptLeases(leases, connected)[k].fingerprint !in connected
    ensures forall k :: k in records ==>
      (k !in KeptRecords(records, connected) <==> forall other :: Closed(records, ids, other) ==> k.key in other)
  {
    forall k | k in records
      ensures k !in KeptRecords(records, connected) <==> forall other :: Closed(records, ids, other) ==> k.key in other
    {
      assert Closed(records, ids, connected);
      assert Hit(records, k, connected) <==> k.key in connected;
      assert k !in KeptRecords(records, connected) <==> Hit(records, k, connected);
    }
  }

  lemma RemovedCount<K, V>(m: map<K, V>, gone: set<K>)
    requires gone <= m.Keys
    ensures |m - gone| == |m| - |gone|
  {
    assert (m - gone).Keys == m.Keys - gone;
  }

  /** Two payloads that are alike but for the names of their properties. */
  predicate AlikeButNames(a: Json, b: Json) {
    match (a, b)
    case (Items(x), Items(y)) => |x| == |y| && forall i :: 0 <= i < |x| ==> AlikeButNames(x[i], y[i])
    case (Object(f), Object(g)) => |f| == |g| && forall i :: 0 <= i < |f| ==> AlikeButNames(f[i].1, g[i].1)
    case _ => a == b
  }

  /** Property names are not looked at: renaming them, at any depth, changes no reference. */
  lemma {:induction false} PropertyNamesDoNotConnect(a: Json, b: Json, ids: set<string>)
    requires AlikeButNames(a, b)
    ensures References(a, ids) <==> References(b, ids)
  {
    match (a, b)
    case (Items(x), Items(y)) =>
      forall i | 0 <= i < |x| ensures References(x[i], ids) <==> References(y[i], ids) {
        PropertyNamesDoNotConnect(x[i], y[i], ids);
      }
    case (Object(f), Object(g)) =>
      forall i | 0 <= i < |f| ensures References(f[i].1, ids) <==> References(g[i].1, ids) {
        PropertyNamesDoNotConnect(f[i].1, g[i].1, ids);
      }
    case _ =>
  }

  /** So a record that has an identifier only as a property name, or as a part of a longer string, survives
      the purge of that identifier. */
  lemma OnlyNamedSurvives(ns: string, id: string, key: string)
    requires key != id
    ensures var k := Key(ns, key); var records := map[k := Object([(id, Other), ("note", Text("about " + id))])];
            LeastClosed(records, {id}, {id}) && !Hit(records, k, {id})
  {
    var k := Key(ns, key);
    var payload := Object([(id, Other), ("note", Text("about " + id))]);
    var records := map[k := payload];
    assert |"about " + id| > |id|;
    assert forall i :: 0 <= i < |payload.fields| ==> !References(payload.fields[i].1, {id});
    assert !References(payload, {id});
  }
}
