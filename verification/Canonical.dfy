// The canonical digest preimages of packages/protocol/src/canonical.ts.
// A text is the string of its UTF-8 bytes, one char a byte.

module Canonical {
  import opened Wrappers

  const NUL: char := 0 as char
  const BAR: char := '|'
  const MAX_LENGTH: nat := 0x1_0000_0000

  predicate IsHex(c: char) {
    '0' <= c <= '9' || 'a' <= c <= 'f' || 'A' <= c <= 'F'
  }

  datatype Digest = Digest(text: string)

  /** "sha256:" and 64 hexadecimal digits. */
  predicate IsDigest(d: Digest) {
    |d.text| == 71 && d.text[..7] == "sha256:" && forall i :: 7 <= i < 71 ==> IsHex(d.text[i])
  }

  function LowerChar(c: char): char {
    if 'A' <= c <= 'Z' then (c as int + 32) as char else c
  }

  function Lower(s: string): (l: string)
    ensures |l| == |s|
  {
    seq(|s|, i requires 0 <= i < |s| => LowerChar(s[i]))
  }

  const HEX: string := "0123456789abcdefABCDEF"
  const UPPER: string := "ABCDEFGHIJKLMNOPQRSTUVWXYZ"
  const SMALL: string := "abcdefghijklmnopqrstuvwxyz"

  /** A digest is sha256: and 64 hexadecimal digits in either case. */
  lemma DigestExactly(d: Digest)
    ensures IsDigest(d) <==>
              && |d.text| == 71 && d.text[..7] == ['s', 'h', 'a', '2', '5', '6', ':']
              && forall c :: c in d.text[7..] ==> c in HEX
  {
    assert forall c: char :: c in HEX <==> IsHex(c);
    if |d.text| == 71 {
      assert forall i :: 7 <= i < 71 ==> d.text[i] == d.text[7..][i - 7] && d.text[i] in d.text[7..];
    }
  }

  /** The 26 letters change their case, everything else stays. */
  lemma LowerExactly(c: char)
    ensures c !in UPPER ==> LowerChar(c) == c
    ensures forall k :: 0 <= k < 26 && c == UPPER[k] ==> LowerChar(c) == SMALL[k]
  {
  }

  /** What is used of node's hash function beyond determinism: the shape of its output, with
      hexadecimal digits in lower case. */
  ghost predicate Sha256(hash: string -> Digest) {
    forall preimage :: IsDigest(hash(preimage)) && Lower(hash(preimage).text) == hash(preimage).text
  }

  datatype Field = Field(name: string, kind: string, value: string)

  predicate Without(s: string, c: char) {
    forall i :: 0 <= i < |s| ==> s[i] != c
  }

  predicate CleanFields(fields: seq<Field>) {
    forall i :: 0 <= i < |fields| ==> Without(fields[i].name, NUL) && Without(fields[i].kind, NUL)
  }

  // ---------- encoding ----------

  function U32(n: nat): (s: string)
    requires n < MAX_LENGTH
  {
    [(n / 0x100_0000) as char, (n / 0x1_0000 % 0x100) as char, (n / 0x100 % 0x100) as char, (n % 0x100) as char]
  }

  function FromU32(s: string): nat
    requires |s| == 4
  {
    s[0] as nat * 0x100_0000 + s[1] as nat * 0x1_0000 + s[2] as nat * 0x100 + s[3] as nat
  }

  /** None where the source throws: an empty name or type, or a value of 4 GiB and more. */
  function EncodeField(f: Field): Option<string> {
    if f.name == "" || f.kind == "" || |f.value| >= MAX_LENGTH then None
    else Some(f.name + [NUL] + f.kind + [NUL] + U32(|f.value|) + f.value)
  }

  function EncodeFields(fields: seq<Field>): Option<string> {
    if fields == [] then Some("")
    else
      var head, tail := EncodeField(fields[0]), EncodeFields(fields[1..]);
      if head.None? || tail.None? then None else Some(head.value + tail.value)
  }

  const PREFIX: string := "ASYNC_AGENT_ARENA|v1|"

  function Preimage(kind: string, fields: seq<Field>): Option<string> {
    if kind == "" then None
    else
      var body := EncodeFields(fields);
      if body.None? then None else Some(PREFIX + kind + [BAR] + body.value)
  }

  // ---------- decoding, the partner of the encoding ----------

  /** The position of the first c in s, |s| when there is none. */
  function Find(s: string, c: char): (k: nat)
    ensures k <= |s| && Without(s[..k], c)
    ensures k < |s| ==> s[k] == c
  {
    if s == "" || s[0] == c then 0
    else
      var k := Find(s[1..], c);
      assert forall i :: 0 < i < k + 1 ==> s[i] == s[1..][i - 1];
      k + 1
  }

  function DecodeField(s: string): (r: Option<(Field, string)>)
    ensures r.Some? ==> |r.value.1| < |s|
  {
    var n := Find(s, NUL);
    if n >= |s| then None
    else
      var afterName := s[n + 1..];
      var t := Find(afterName, NUL);
      if t >= |afterName| || |afterName| < t + 5 then None
      else
        var rest := afterName[t + 5..];
        var length := FromU32(afterName[t + 1..t + 5]);
        if length > |rest| then None
        else Some((Field(s[..n], afterName[..t], rest[..length]), rest[length..]))
  }

  function DecodeFields(s: string): Option<seq<Field>>
    decreases |s|
  {
    if s == "" then Some([])
    else
      var head := DecodeField(s);
      if head.None? then None
      else
        var tail := DecodeFields(head.value.1);
        if tail.None? then None else Some([head.value.0] + tail.value)
  }

  lemma {:induction false} FindAfter(s: string, c: char, rest: string)
    requires Without(s, c)
    ensures Find(s + [c] + rest, c) == |s|
  {
    var whole := s + [c] + rest;
    if s == "" {
      assert whole[0] == c;
    } else {
      assert whole[0] == s[0] && whole[1..] == s[1..] + [c] + rest;
      FindAfter(s[1..], c, rest);
    }
  }

  lemma U32RoundTrip(n: nat)
    requires n < MAX_LENGTH
    ensures FromU32(U32(n)) == n
  {
    assert n / 0x100_0000 == n / 0x1_0000 / 0x100;
    assert n / 0x1_0000 == n / 0x100 / 0x100;
  }

  lemma SplitAtFirst(s: string, c: char, rest: string)
    requires Without(s, c)
    ensures var whole := s + [c] + rest;
            Find(whole, c) == |s| && whole[..|s|] == s && whole[|s| + 1..] == rest
  {
    FindAfter(s, c, rest);
  }

  /** A separator that two heads do not hold tells head from tail. */
  lemma SplitAt(c: char, a: string, x: string, b: string, y: string)
    requires Without(a, c) && Without(b, c)
    requires a + [c] + x == b + [c] + y
    ensures a == b && x == y
  {
    SplitAtFirst(a, c, x);
    SplitAtFirst(b, c, y);
  }

  /** The value part: a length of four bytes, that many bytes, and what follows. */
  lemma DecodeValue(length: string, value: string, rest: string)
    requires |length| == 4 && FromU32(length) == |value|
    ensures var tail := length + value + rest;
            tail[..4] == length && tail[4..] == value + rest
            && (value + rest)[..|value|] == value && (value + rest)[|value|..] == rest
  {
    assert length + value + rest == length + (value + rest);
  }

  lemma DecodeEncodeField(f: Field, rest: string)
    requires Without(f.name, NUL) && Without(f.kind, NUL)
    requires EncodeField(f).Some?
    ensures DecodeField(EncodeField(f).value + rest) == Some((f, rest))
  {
    var length := U32(|f.value|);
    var afterType := length + f.value + rest;
    var afterName := f.kind + [NUL] + afterType;
    var s := EncodeField(f).value + rest;
    assert s == f.name + [NUL] + afterName;
    U32RoundTrip(|f.value|);
    SplitAtFirst(f.name, NUL, afterName);
    SplitAtFirst(f.kind, NUL, afterType);
    DecodeValue(length, f.value, rest);
    var t := |f.kind|;
    assert afterName[t + 1..t + 5] == afterType[..4] && afterName[t + 5..] == afterType[4..];
  }

  lemma DecodeOne(f: Field, rest: string, fields: seq<Field>)
    requires Without(f.name, NUL) && Without(f.kind, NUL) && EncodeField(f).Some?
    requires DecodeFields(rest) == Some(fields)
    ensures DecodeFields(EncodeField(f).value + rest) == Some([f] + fields)
  {
    DecodeEncodeField(f, rest);
  }

  /** Decoding undoes encoding, for field lists of any length. */
  lemma {:induction false} DecodeEncode(fields: seq<Field>)
    requires CleanFields(fields)
    requires EncodeFields(fields).Some?
    ensures DecodeFields(EncodeFields(fields).value) == Some(fields)
  {
    if fields != [] {
      DecodeEncode(fields[1..]);
      DecodeOne(fields[0], EncodeFields(fields[1..]).value, fields[1..]);
      assert fields == [fields[0]] + fields[1..];
    }
  }

  /** Two digests have the same preimage only when kind and fields agree. */
  lemma PreimageInjective(kind: string, fields: seq<Field>, kind': string, fields': seq<Field>)
    requires Without(kind, BAR) && Without(kind', BAR) && CleanFields(fields) && CleanFields(fields')
    requires Preimage(kind, fields).Some? && Preimage(kind, fields) == Preimage(kind', fields')
    ensures kind == kind' && fields == fields'
  {
    var body, body' := EncodeFields(fields).value, EncodeFields(fields').value;
    var s, n := Preimage(kind, fields).value, |PREFIX|;
    assert s[n..] == kind + [BAR] + body;
    assert s[n..] == kind' + [BAR] + body';
    FindAfter(kind, BAR, body);
    FindAfter(kind', BAR, body');
    assert s[n..][..|kind|] == kind && s[n..][..|kind|] == kind';
    assert s[n..][|kind| + 1..] == body && s[n..][|kind| + 1..] == body';
    DecodeEncode(fields);
    DecodeEncode(fields');
  }

  // ---------- decimal numbers ----------

  function Decimal(n: nat): (s: string)
    ensures s != ""
  {
    if n < 10 then [(n + 48) as char] else Decimal(n / 10) + [(n % 10 + 48) as char]
  }

  function FromDecimal(s: string): int {
    if s == "" then 0 else FromDecimal(s[..|s| - 1]) * 10 + (s[|s| - 1] as int - 48)
  }

  lemma {:induction false} DecimalRoundTrip(n: nat)
    ensures FromDecimal(Decimal(n)) == n
  {
    if n < 10 {
      assert Decimal(n)[..0] == "";
    } else {
      DecimalRoundTrip(n / 10);
      assert Decimal(n)[..|Decimal(n)| - 1] == Decimal(n / 10);
    }
  }

  lemma {:induction false} DecimalIsShort(n: nat, k: nat)
    requires n <= k
    ensures |Decimal(n)| <= k + 1
    decreases n
  {
    if n >= 10 {
      DecimalIsShort(n / 10, k - 1);
    }
  }

  // ---------- match and attempt identifiers ----------

  function MatchFields(tournament: Digest, stage: string, round: nat, index: nat, slotA: string, slotB: string,
      revision: nat): seq<Field> {
    [ Field("tournament_id", "digest", Lower(tournament.text)),
      Field("stage", "text", stage),
      Field("round_number", "u32", Decimal(round)),
      Field("match_index", "u32", Decimal(index)),
      Field("slot_a", "slot", slotA),
      Field("slot_b", "slot", slotB),
      Field("bracket_revision", "u32", Decimal(revision)) ]
  }

  function AttemptFields(match_: Digest, number: nat): seq<Field> {
    [ Field("match_id", "digest", Lower(match_.text)), Field("attempt_number", "u32", Decimal(number)) ]
  }

  /** None where the source throws on an empty stage or slot text. */
  function MatchPreimage(tournament: Digest, stage: string, round: nat, index: nat, slotA: string, slotB: string,
      revision: nat): Option<string> {
    if stage == "" || slotA == "" || slotB == "" then None
    else Preimage("match", MatchFields(tournament, stage, round, index, slotA, slotB, revision))
  }

  function AttemptPreimage(match_: Digest, number: nat): Option<string> {
    Preimage("attempt", AttemptFields(match_, number))
  }

  lemma LongNamesClean()
    ensures Without("tournament_id", NUL) && Without("round_number", NUL) && Without("match_index", NUL)
      && Without("bracket_revision", NUL)
  {
  }

  lemma ShortNamesClean()
    ensures Without("stage", NUL) && Without("slot_a", NUL) && Without("slot_b", NUL)
    ensures Without("digest", NUL) && Without("text", NUL) && Without("u32", NUL) && Without("slot", NUL)
  {
  }

  lemma MatchFieldsClean(t: Digest, stage: string, round: nat, index: nat, a: string, b: string, revision: nat)
    ensures CleanFields(MatchFields(t, stage, round, index, a, b, revision))
  {
    LongNamesClean();
    ShortNamesClean();
  }

  /** Equal match preimages describe the same match. */
  lemma MatchPreimageInjective(
      t: Digest, stage: string, round: nat, index: nat, a: string, b: string, revision: nat,
      t': Digest, stage': string, round': nat, index': nat, a': string, b': string, revision': nat)
    requires MatchPreimage(t, stage, round, index, a, b, revision).Some?
    requires MatchPreimage(t, stage, round, index, a, b, revision)
      == MatchPreimage(t', stage', round', index', a', b', revision')
    ensures Lower(t.text) == Lower(t'.text) && stage == stage' && round == round' && index == index'
    ensures a == a' && b == b' && revision == revision'
  {
    MatchFieldsClean(t, stage, round, index, a, b, revision);
    MatchFieldsClean(t', stage', round', index', a', b', revision');
    PreimageInjective("match", MatchFields(t, stage, round, index, a, b, revision),
                      "match", MatchFields(t', stage', round', index', a', b', revision'));
    MatchFieldsInjective(t, stage, round, index, a, b, revision, t', stage', round', index', a', b', revision');
  }

  lemma MatchFieldsInjective(
      t: Digest, stage: string, round: nat, index: nat, a: string, b: string, revision: nat,
      t': Digest, stage': string, round': nat, index': nat, a': string, b': string, revision': nat)
    requires MatchFields(t, stage, round, index, a, b, revision)
      == MatchFields(t', stage', round', index', a', b', revision')
    ensures Lower(t.text) == Lower(t'.text) && stage == stage' && round == round' && index == index'
    ensures a == a' && b == b' && revision == revision'
  {
    var f, f' := MatchFields(t, stage, round, index, a, b, revision),
      MatchFields(t', stage', round', index', a', b', revision');
    assert f[0].value == f'[0].value;
    assert f[1].value == f'[1].value;
    assert f[2].value == f'[2].value;
    assert f[3].value == f'[3].value;
    assert f[4].value == f'[4].value;
    assert f[5].value == f'[5].value;
    assert f[6].value == f'[6].value;
    DecimalRoundTrip(round);
    DecimalRoundTrip(round');
    DecimalRoundTrip(index);
    DecimalRoundTrip(index');
    DecimalRoundTrip(revision);
    DecimalRoundTrip(revision');
  }

  lemma AttemptFieldsClean(m: Digest, number: nat)
    ensures CleanFields(AttemptFields(m, number))
  {
    var f := AttemptFields(m, number);
    assert Without(f[0].name, NUL) && Without(f[0].kind, NUL);
    assert Without(f[1].name, NUL) && Without(f[1].kind, NUL);
  }

  /** Attempts of different matches, or different attempts of one match, have different
      preimages, and no attempt shares its preimage with a match. */
  lemma AttemptPreimageInjective(m: Digest, number: nat, m': Digest, number': nat)
    requires AttemptPreimage(m, number).Some? && AttemptPreimage(m, number) == AttemptPreimage(m', number')
    ensures Lower(m.text) == Lower(m'.text) && number == number'
  {
    var f, f' := AttemptFields(m, number), AttemptFields(m', number');
    AttemptFieldsClean(m, number);
    AttemptFieldsClean(m', number');
    PreimageInjective("attempt", f, "attempt", f');
    assert f[0] == f'[0] && f[1] == f'[1];
    DecimalRoundTrip(number);
    DecimalRoundTrip(number');
  }

  lemma MatchIsNoAttempt(t: Digest, stage: string, round: nat, index: nat, a: string, b: string, revision: nat,
      m: Digest, number: nat)
    requires MatchPreimage(t, stage, round, index, a, b, revision).Some?
    ensures MatchPreimage(t, stage, round, index, a, b, revision) != AttemptPreimage(m, number)
  {
    if MatchPreimage(t, stage, round, index, a, b, revision) == AttemptPreimage(m, number) {
      MatchFieldsClean(t, stage, round, index, a, b, revision);
      AttemptFieldsClean(m, number);
      PreimageInjective("match", MatchFields(t, stage, round, index, a, b, revision), "attempt",
        AttemptFields(m, number));
    }
  }

  // ---------- what the preimages say ----------

  /** Behind the prefix and the kind, the decoder finds the fields. */
  ghost predicate Says(preimage: string, kind: string, fields: seq<Field>) {
    var head := "ASYNC_AGENT_ARENA|v1|" + kind + "|";
    |head| <= |preimage| && preimage[..|head|] == head && DecodeFields(preimage[|head|..]) == Some(fields)
  }

  predicate IsField(f: Field, name: string, kind: string, value: string) {
    f.name == name && f.kind == kind && f.value == value
  }

  predicate IsNumber(f: Field, name: string, n: nat) {
    f.name == name && f.kind == "u32" && FromDecimal(f.value) == n
  }

  lemma PreimageSays(kind: string, fields: seq<Field>)
    requires Preimage(kind, fields).Some? && CleanFields(fields)
    ensures Says(Preimage(kind, fields).value, kind, fields)
  {
    DecodeEncode(fields);
    var head, body := PREFIX + kind + [BAR], EncodeFields(fields).value;
    assert Preimage(kind, fields).value == head + body;
    assert head == "ASYNC_AGENT_ARENA|v1|" + kind + "|";
  }

  /** A match is identified by its tournament, stage, round, index, slots and revision, in this order. */
  lemma MatchPreimageSays(t: Digest, stage: string, round: nat, index: nat, a: string, b: string, revision: nat)
      returns (f: seq<Field>)
    requires MatchPreimage(t, stage, round, index, a, b, revision).Some?
    ensures Says(MatchPreimage(t, stage, round, index, a, b, revision).value, "match", f) && |f| == 7
    ensures IsField(f[0], "tournament_id", "digest", Lower(t.text)) && IsField(f[1], "stage", "text", stage)
    ensures IsNumber(f[2], "round_number", round) && IsNumber(f[3], "match_index", index)
    ensures IsField(f[4], "slot_a", "slot", a) && IsField(f[5], "slot_b", "slot", b)
    ensures IsNumber(f[6], "bracket_revision", revision)
  {
    f := MatchFields(t, stage, round, index, a, b, revision);
    MatchFieldsClean(t, stage, round, index, a, b, revision);
    PreimageSays("match", f);
    DecimalRoundTrip(round);
    DecimalRoundTrip(index);
    DecimalRoundTrip(revision);
  }

  /** An attempt is identified by its match and number. */
  lemma AttemptPreimageSays(m: Digest, number: nat) returns (f: seq<Field>)
    requires AttemptPreimage(m, number).Some?
    ensures Says(AttemptPreimage(m, number).value, "attempt", f) && |f| == 2
    ensures IsField(f[0], "match_id", "digest", Lower(m.text)) && IsNumber(f[1], "attempt_number", number)
  {
    f := AttemptFields(m, number);
    AttemptFieldsClean(m, number);
    PreimageSays("attempt", f);
    DecimalRoundTrip(number);
  }
}
