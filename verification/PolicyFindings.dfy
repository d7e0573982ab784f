// The deterministic policy findings, computed twice: by the application
// (packages/evaluation/src/policy.ts) and by the contract (contracts/AgentEvaluationJudge.py:181-213).
// The reader compares the two lists in content and order, so an evaluation settles only when they agree.

module PolicyFindings {
  import opened Wrappers

  datatype Definition = Definition(id: string, argumentKeys: seq<string>, requiresConfirmation: bool)
  datatype Scenario = Scenario(available: seq<Definition>, forbidden: seq<string>, confirmation: seq<string>,
      maxProposed: nat)
  datatype Decision = Respond | ProposeAction | RequestConfirmation | Refuse
  /** A proposed action, with the keys of its arguments in the order the runtime lists them. */
  datatype Action = Action(id: string, keys: seq<string>)

  datatype Code =
    | ActionLimitExceeded | DuplicateAction | ForbiddenAction | UnknownAction
    | ConfirmationRequired | ArgumentKeyForbidden | DecisionActionMismatch
  datatype Evidence = ActionPlan | ScenarioText
  /** The detail text is fixed by the code, but for the argument key it names. */
  datatype Finding = Finding(code: Code, actionId: Option<string>, key: Option<string>, evidence: Evidence)
  datatype Row = Row(code: Code, actionId: string, evidence: Evidence)
  datatype ProposalEvaluation = ProposalEvaluation(
    blocking: bool, findings: seq<Finding>, proposedActionIds: seq<string>)

  /** Later definitions of an id replace earlier ones, as in a Map or a dict. */
  function Catalog(defs: seq<Definition>): map<string, Definition> {
    if defs == [] then map[] else Catalog(defs[..|defs| - 1])[defs[|defs| - 1].id := defs[|defs| - 1]]
  }

  predicate Mismatch(decision: Decision, hasActions: bool) {
    (hasActions && (decision == Respond || decision == Refuse)) || (!hasActions && decision == ProposeAction)
  }

  predicate MustConfirm(s: Scenario, decision: Decision, id: string)
    requires id in Catalog(s.available)
  {
    (Catalog(s.available)[id].requiresConfirmation || id in s.confirmation) && decision != RequestConfirmation
  }

  /** The action's arguments are looked at: neither a repeat, nor forbidden, nor unknown. */
  predicate Reached(s: Scenario, id: string, seen: set<string>) {
    id !in seen && id !in s.forbidden && id in Catalog(s.available)
  }

  function Allowed(s: Scenario, id: string): seq<string>
    requires id in Catalog(s.available)
  {
    Catalog(s.available)[id].argumentKeys
  }

  // ---------- the application ----------

  function KeyFindings(id: string, keys: seq<string>, allowed: seq<string>): seq<Finding> {
    if keys == [] then []
    else
      (if keys[0] in allowed then [] else [Finding(ArgumentKeyForbidden, Some(id), Some(keys[0]), ActionPlan)])
      + KeyFindings(id, keys[1..], allowed)
  }

  function ActionFindings(s: Scenario, decision: Decision, a: Action, seen: set<string>): seq<Finding> {
    if a.id in seen then [Finding(DuplicateAction, Some(a.id), None, ActionPlan)]
    else if a.id in s.forbidden then [Finding(ForbiddenAction, Some(a.id), None, ScenarioText)]
    else if a.id !in Catalog(s.available) then [Finding(UnknownAction, Some(a.id), None, ScenarioText)]
    else
      (if MustConfirm(s, decision, a.id) then [Finding(ConfirmationRequired, Some(a.id), None, ScenarioText)] else [])
      + KeyFindings(a.id, a.keys, Allowed(s, a.id))
  }

  function FindingsFrom(s: Scenario, decision: Decision, actions: seq<Action>, seen: set<string>): seq<Finding> {
    if actions == [] then []
    else ActionFindings(s, decision, actions[0], seen) + FindingsFrom(s, decision, actions[1..], seen + {actions[0].id})
  }

  function ListFindings(s: Scenario, decision: Decision, n: nat): seq<Finding> {
    (if n > s.maxProposed then [Finding(ActionLimitExceeded, None, None, ActionPlan)] else [])
    + (if Mismatch(decision, n > 0) then [Finding(DecisionActionMismatch, None, None, ActionPlan)] else [])
  }

  function Findings(s: Scenario, decision: Decision, actions: seq<Action>): seq<Finding> {
    ListFindings(s, decision, |actions|) + FindingsFrom(s, decision, actions, {})
  }

  method CheckKeys(id: string, keys: seq<string>, allowed: seq<string>) returns (findings: seq<Finding>)
    ensures findings == KeyFindings(id, keys, allowed)
  {
    findings := [];
    var i := 0;
    while i < |keys|
      invariant 0 <= i <= |keys|
      invariant findings + KeyFindings(id, keys[i..], allowed) == KeyFindings(id, keys, allowed)
    {
      assert keys[i..][1..] == keys[i + 1..];
      if keys[i] !in allowed {
        findings := findings + [Finding(ArgumentKeyForbidden, Some(id), Some(keys[i]), ActionPlan)];
      }
      i := i + 1;
    }
  }

  method CheckAction(s: Scenario, byId: map<string, Definition>, decision: Decision, a: Action, seen: set<string>)
    returns (findings: seq<Finding>)
    requires byId == Catalog(s.available)
    ensures findings == ActionFindings(s, decision, a, seen)
  {
    if a.id in seen { return [Finding(DuplicateAction, Some(a.id), None, ActionPlan)]; }
    if a.id in s.forbidden { return [Finding(ForbiddenAction, Some(a.id), None, ScenarioText)]; }
    if a.id !in byId { return [Finding(UnknownAction, Some(a.id), None, ScenarioText)]; }
    findings := CheckKeys(a.id, a.keys, byId[a.id].argumentKeys);
    if (byId[a.id].requiresConfirmation || a.id in s.confirmation) && decision != RequestConfirmation {
      findings := [Finding(ConfirmationRequired, Some(a.id), None, ScenarioText)] + findings;
    }
  }

  method CatalogOf(defs: seq<Definition>) returns (byId: map<string, Definition>)
    ensures byId == Catalog(defs)
  {
    byId := map[];
    var i := 0;
    while i < |defs|
      invariant 0 <= i <= |defs| && byId == Catalog(defs[..i])
    {
      assert defs[..i + 1][..i] == defs[..i];
      byId := byId[defs[i].id := defs[i]];
      i := i + 1;
    }
    assert defs[..|defs|] == defs;
  }

  /** The loop over the proposed actions. */
  method CheckActions(s: Scenario, byId: map<string, Definition>, decision: Decision, actions: seq<Action>)
      returns (findings: seq<Finding>)
    requires byId == Catalog(s.available)
    ensures findings == FindingsFrom(s, decision, actions, {})
  {
    findings := [];
    var seen: set<string> := {};
    var i := 0;
    ghost var all := FindingsFrom(s, decision, actions, {});
    while i < |actions|
      invariant 0 <= i <= |actions|
      invariant findings + FindingsFrom(s, decision, actions[i..], seen) == all
    {
      findings := CheckNext(s, byId, decision, actions, i, seen, findings, all);
      seen := seen + {actions[i].id};
      i := i + 1;
    }
  }

  method CheckNext(s: Scenario, byId: map<string, Definition>, decision: Decision, actions: seq<Action>, i: nat,
      seen: set<string>, before: seq<Finding>, ghost all: seq<Finding>)
    returns (findings: seq<Finding>)
    requires byId == Catalog(s.available) && i < |actions|
    requires before + FindingsFrom(s, decision, actions[i..], seen) == all
    ensures findings + FindingsFrom(s, decision, actions[i + 1..], seen + {actions[i].id}) == all
  {
    assert actions[i..][1..] == actions[i + 1..];
    var more := CheckAction(s, byId, decision, actions[i], seen);
    findings := before + more;
    assert FindingsFrom(s, decision, actions[i..], seen) == more
      + FindingsFrom(s, decision, actions[i + 1..], seen + {actions[i].id});
  }

  /** What it means for a proposal to be clean, read off the whole list at once. */
  predicate Clean(s: Scenario, decision: Decision, actions: seq<Action>) {
    && |actions| <= s.maxProposed
    && (decision == Respond || decision == Refuse ==> actions == [])
    && (decision == ProposeAction ==> actions != [])
    && (forall i, j :: 0 <= i < j < |actions| ==> actions[i].id != actions[j].id)
    && forall i :: 0 <= i < |actions| ==> Harmless(s, decision, actions[i])
  }

  predicate Harmless(s: Scenario, decision: Decision, a: Action) {
    && a.id !in s.forbidden && a.id in Catalog(s.available)
    && (Catalog(s.available)[a.id].requiresConfirmation || a.id in s.confirmation ==> decision == RequestConfirmation)
    && forall k :: k in a.keys ==> k in Catalog(s.available)[a.id].argumentKeys
  }

  lemma {:induction false} NoKeyFindings(id: string, keys: seq<string>, allowed: seq<string>)
    ensures KeyFindings(id, keys, allowed) == [] <==> forall k :: k in keys ==> k in allowed
  {
    if keys != [] {
      NoKeyFindings(id, keys[1..], allowed);
      assert keys == [keys[0]] + keys[1..];
    }
  }

  /** No action repeats an earlier one or one already seen. */
  predicate FreshIds(actions: seq<Action>, seen: set<string>) {
    && (forall i :: 0 <= i < |actions| ==> actions[i].id !in seen)
    && (forall i, j :: 0 <= i < j < |actions| ==> actions[i].id != actions[j].id)
  }

  predicate AllHarmless(s: Scenario, decision: Decision, actions: seq<Action>) {
    forall i :: 0 <= i < |actions| ==> Harmless(s, decision, actions[i])
  }

  lemma ConsFresh(a: Action, rest: seq<Action>, seen: set<string>)
    ensures FreshIds([a] + rest, seen) <==> a.id !in seen && FreshIds(rest, seen + {a.id})
  {
    var all := [a] + rest;
    assert forall i :: 0 <= i < |rest| ==> rest[i] == all[i + 1];
    if FreshIds(all, seen) {
      assert all[0] == a;
      forall i | 0 <= i < |rest| ensures rest[i].id !in seen + {a.id} { assert all[i + 1].id != all[0].id; }
    }
  }

  lemma ConsHarmless(s: Scenario, decision: Decision, a: Action, rest: seq<Action>)
    ensures AllHarmless(s, decision, [a] + rest) <==> Harmless(s, decision, a) && AllHarmless(s, decision, rest)
  {
    var all := [a] + rest;
    assert all[0] == a && forall i :: 0 <= i < |rest| ==> rest[i] == all[i + 1];
  }

  lemma NoActionFindings(s: Scenario, decision: Decision, a: Action, seen: set<string>)
    ensures ActionFindings(s, decision, a, seen) == [] <==> a.id !in seen && Harmless(s, decision, a)
  {
    if Reached(s, a.id, seen) { NoKeyFindings(a.id, a.keys, Allowed(s, a.id)); }
  }

  lemma {:induction false} NoFindingsFrom(s: Scenario, decision: Decision, actions: seq<Action>, seen: set<string>)
    ensures FindingsFrom(s, decision, actions, seen) == [] <==>
      FreshIds(actions, seen) && AllHarmless(s, decision, actions)
  {
    if actions != [] {
      var a, rest := actions[0], actions[1..];
      assert actions == [a] + rest;
      NoFindingsFrom(s, decision, rest, seen + {a.id});
      NoActionFindings(s, decision, a, seen);
      ConsFresh(a, rest, seen);
      ConsHarmless(s, decision, a, rest);
    }
  }

  /** The proposal blocks exactly when some rule is broken somewhere in the list. */
  lemma {:induction false} BlocksExactly(s: Scenario, decision: Decision, actions: seq<Action>)
    ensures Findings(s, decision, actions) == [] <==> Clean(s, decision, actions)
  {
    NoFindingsFrom(s, decision, actions, {});
  }

  method EvaluateActionProposal(s: Scenario, decision: Decision, actions: seq<Action>) returns (r: ProposalEvaluation)
    ensures r.findings == Findings(s, decision, actions)
    ensures r.blocking <==> !Clean(s, decision, actions)
    ensures |r.proposedActionIds| == |actions|
      && forall i :: 0 <= i < |actions| ==> r.proposedActionIds[i] == actions[i].id
  {
    var findings := ListFindings(s, decision, |actions|);
    var byId := CatalogOf(s.available);
    var more := CheckActions(s, byId, decision, actions);
    BlocksExactly(s, decision, actions);
    var ids := seq(|actions|, i requires 0 <= i < |actions| => actions[i].id);
    r := ProposalEvaluation(|findings + more| > 0, findings + more, ids);
  }

  // ---------- the contract ----------

  function ArgumentRow(id: string): Row {
    Row(ArgumentKeyForbidden, id, ActionPlan)
  }

  function Repeat(r: Row, n: nat): (rows: seq<Row>)
    ensures |rows| == n
  {
    if n == 0 then [] else [r] + Repeat(r, n - 1)
  }

  function Disallowed(keys: seq<string>, allowed: seq<string>): nat {
    if keys == [] then 0 else (if keys[0] in allowed then 0 else 1) + Disallowed(keys[1..], allowed)
  }

  function ActionRows(s: Scenario, decision: Decision, a: Action, seen: set<string>): seq<Row> {
    if a.id in seen then [Row(DuplicateAction, a.id, ActionPlan)]
    else if a.id in s.forbidden then [Row(ForbiddenAction, a.id, ScenarioText)]
    else if a.id !in Catalog(s.available) then [Row(UnknownAction, a.id, ScenarioText)]
    else
      (if MustConfirm(s, decision, a.id) then [Row(ConfirmationRequired, a.id, ScenarioText)] else [])
      + Repeat(ArgumentRow(a.id), Disallowed(a.keys, Allowed(s, a.id)))
  }

  function RowsFrom(s: Scenario, decision: Decision, actions: seq<Action>, seen: set<string>): seq<Row> {
    if actions == [] then []
    else ActionRows(s, decision, actions[0], seen) + RowsFrom(s, decision, actions[1..], seen + {actions[0].id})
  }

  function ListRows(s: Scenario, decision: Decision, n: nat): seq<Row> {
    (if n > s.maxProposed then [Row(ActionLimitExceeded, "", ActionPlan)] else [])
    + (if Mismatch(decision, n > 0) then [Row(DecisionActionMismatch, "", ActionPlan)] else [])
  }

  function ContractRows(s: Scenario, decision: Decision, actions: seq<Action>): seq<Row> {
    ListRows(s, decision, |actions|) + RowsFrom(s, decision, actions, {})
  }

  method KeyRows(id: string, keys: seq<string>, allowed: seq<string>) returns (rows: seq<Row>)
    ensures rows == Repeat(ArgumentRow(id), Disallowed(keys, allowed))
  {
    rows := [];
    var i := |keys|;
    while i > 0
      invariant 0 <= i <= |keys|
      invariant rows == Repeat(ArgumentRow(id), Disallowed(keys[i..], allowed))
    {
      i := i - 1;
      assert keys[i..][1..] == keys[i + 1..];
      if keys[i] !in allowed { rows := [ArgumentRow(id)] + rows; }
    }
  }

  method ActionToRows(s: Scenario, available: map<string, Definition>, decision: Decision, a: Action, seen: set<string>)
    returns (rows: seq<Row>)
    requires available == Catalog(s.available)
    ensures rows == ActionRows(s, decision, a, seen)
  {
    if a.id in seen { return [Row(DuplicateAction, a.id, ActionPlan)]; }
    if a.id in s.forbidden { return [Row(ForbiddenAction, a.id, ScenarioText)]; }
    if a.id !in available { return [Row(UnknownAction, a.id, ScenarioText)]; }
    rows := KeyRows(a.id, a.keys, available[a.id].argumentKeys);
    if (available[a.id].requiresConfirmation || a.id in s.confirmation) && decision != RequestConfirmation {
      rows := [Row(ConfirmationRequired, a.id, ScenarioText)] + rows;
    }
  }

  method DerivePolicyFindings(s: Scenario, decision: Decision, actions: seq<Action>) returns (rows: seq<Row>)
    ensures rows == ContractRows(s, decision, actions)
  {
    rows := ListRows(s, decision, |actions|);
    var available := CatalogOf(s.available);
    var more := ActionsToRows(s, available, decision, actions);
    rows := rows + more;
  }

  method ActionsToRows(s: Scenario, available: map<string, Definition>, decision: Decision, actions: seq<Action>)
      returns (rows: seq<Row>)
    requires available == Catalog(s.available)
    ensures rows == RowsFrom(s, decision, actions, {})
  {
    rows := [];
    var seen: set<string> := {};
    var i := 0;
    ghost var all := RowsFrom(s, decision, actions, {});
    while i < |actions|
      invariant 0 <= i <= |actions|
      invariant rows + RowsFrom(s, decision, actions[i..], seen) == all
    {
      rows := NextToRows(s, available, decision, actions, i, seen, rows, all);
      seen := seen + {actions[i].id};
      i := i + 1;
    }
  }

  method NextToRows(s: Scenario, available: map<string, Definition>, decision: Decision, actions: seq<Action>, i: nat,
      seen: set<string>, before: seq<Row>, ghost all: seq<Row>)
    returns (rows: seq<Row>)
    requires available == Catalog(s.available) && i < |actions|
    requires before + RowsFrom(s, decision, actions[i..], seen) == all
    ensures rows + RowsFrom(s, decision, actions[i + 1..], seen + {actions[i].id}) == all
  {
    assert actions[i..][1..] == actions[i + 1..];
    var more := ActionToRows(s, available, decision, actions[i], seen);
    rows := before + more;
    assert RowsFrom(s, decision, actions[i..], seen) == more
      + RowsFrom(s, decision, actions[i + 1..], seen + {actions[i].id});
  }

  // ---------- agreement ----------

  function ToRow(f: Finding): Row {
    Row(f.code, if f.actionId.Some? then f.actionId.value else "", f.evidence)
  }

  /** The projection the canonical comparison uses (run-tracker.ts:532-538). */
  function Project(findings: seq<Finding>): (rows: seq<Row>)
    ensures |rows| == |findings|
  {
    if findings == [] then [] else [ToRow(findings[0])] + Project(findings[1..])
  }

  lemma {:induction false} ProjectConcat(a: seq<Finding>, b: seq<Finding>)
    ensures Project(a + b) == Project(a) + Project(b)
  {
    if a == [] {
      assert a + b == b;
    } else {
      assert (a + b)[1..] == a[1..] + b;
      ProjectConcat(a[1..], b);
    }
  }

  lemma {:induction false} KeysProject(id: string, keys: seq<string>, allowed: seq<string>)
    ensures Project(KeyFindings(id, keys, allowed)) == Repeat(ArgumentRow(id), Disallowed(keys, allowed))
  {
    if keys != [] {
      KeysProject(id, keys[1..], allowed);
      var head := if keys[0] in allowed then []
        else [Finding(ArgumentKeyForbidden, Some(id), Some(keys[0]), ActionPlan)];
      ProjectConcat(head, KeyFindings(id, keys[1..], allowed));
      assert Project(head) == if keys[0] in allowed then [] else [ArgumentRow(id)];
    }
  }

  lemma {:induction false} ActionProject(s: Scenario, decision: Decision, a: Action, seen: set<string>)
    ensures Project(ActionFindings(s, decision, a, seen)) == ActionRows(s, decision, a, seen)
  {
    if Reached(s, a.id, seen) {
      var confirm := if MustConfirm(s, decision, a.id)
        then [Finding(ConfirmationRequired, Some(a.id), None, ScenarioText)] else [];
      ProjectConcat(confirm, KeyFindings(a.id, a.keys, Allowed(s, a.id)));
      KeysProject(a.id, a.keys, Allowed(s, a.id));
    }
  }

  /** On one and the same action list the two derivations agree, row by row and in order. */
  lemma {:induction false} SameListAgrees(s: Scenario, decision: Decision, actions: seq<Action>, seen: set<string>)
    ensures Project(FindingsFrom(s, decision, actions, seen)) == RowsFrom(s, decision, actions, seen)
  {
    if actions != [] {
      var a, later := actions[0], seen + {actions[0].id};
      ProjectConcat(ActionFindings(s, decision, a, seen), FindingsFrom(s, decision, actions[1..], later));
      ActionProject(s, decision, a, seen);
      SameListAgrees(s, decision, actions[1..], later);
    }
  }

  lemma ListProject(s: Scenario, decision: Decision, n: nat)
    ensures Project(ListFindings(s, decision, n)) == ListRows(s, decision, n)
  {
    var limit := if n > s.maxProposed then [Finding(ActionLimitExceeded, None, None, ActionPlan)] else [];
    var mismatch := if Mismatch(decision, n > 0) then [Finding(DecisionActionMismatch, None, None, ActionPlan)] else [];
    ProjectConcat(limit, mismatch);
  }

  lemma {:induction false} RepeatOf(r: Row, n: nat)
    ensures forall x :: x in Repeat(r, n) ==> x == r
    ensures multiset(Repeat(r, n))[r] == n
  {
    if n > 0 {
      RepeatOf(r, n - 1);
      assert multiset(Repeat(r, n)) == multiset{r} + multiset(Repeat(r, n - 1));
    }
  }

  lemma NoArgumentRow(s: Scenario, decision: Decision, a: Action, seen: set<string>, id: string)
    requires id in seen
    ensures ArgumentRow(id) !in ActionRows(s, decision, a, seen)
  {
    if Reached(s, a.id, seen) { RepeatOf(ArgumentRow(a.id), Disallowed(a.keys, Allowed(s, a.id))); }
  }

  lemma RowsUnfold(s: Scenario, decision: Decision, actions: seq<Action>, seen: set<string>)
    requires actions != []
    ensures RowsFrom(s, decision, actions, seen)
            == ActionRows(s, decision, actions[0], seen) + RowsFrom(s, decision, actions[1..], seen + {actions[0].id})
  {
  }

  /** An action already seen contributes no further argument row. */
  lemma {:induction false} NoLateArgumentRow(s: Scenario, decision: Decision, actions: seq<Action>, seen: set<string>,
      id: string)
    requires id in seen
    ensures ArgumentRow(id) !in RowsFrom(s, decision, actions, seen)
  {
    if actions != [] {
      RowsUnfold(s, decision, actions, seen);
      NoArgumentRow(s, decision, actions[0], seen, id);
      NoLateArgumentRow(s, decision, actions[1..], seen + {actions[0].id}, id);
    }
  }

  predicate SameIds(app: seq<Action>, contract: seq<Action>) {
    |app| == |contract| && forall i :: 0 <= i < |app| ==> app[i].id == contract[i].id
  }

  /** Every action whose arguments are looked at has as many disallowed keys on both sides. */
  predicate SameCounts(s: Scenario, app: seq<Action>, contract: seq<Action>, seen: set<string>)
    requires SameIds(app, contract)
  {
    forall i :: 0 <= i < |app| && Reached(s, app[i].id, seen + Seen(app[..i])) ==>
      Disallowed(app[i].keys, Allowed(s, app[i].id)) == Disallowed(contract[i].keys, Allowed(s, app[i].id))
  }

  function Seen(actions: seq<Action>): set<string> {
    set a | a in actions :: a.id
  }

  lemma SameCountsCons(s: Scenario, app: seq<Action>, contract: seq<Action>, seen: set<string>)
    requires SameIds(app, contract) && app != []
    ensures SameIds(app[1..], contract[1..])
    ensures SameCounts(s, app, contract, seen) <==>
      && (Reached(s, app[0].id, seen) ==>
            Disallowed(app[0].keys, Allowed(s, app[0].id)) == Disallowed(contract[0].keys, Allowed(s, app[0].id)))
      && SameCounts(s, app[1..], contract[1..], seen + {app[0].id})
  {
    var id := app[0].id;
    assert Seen(app[..0]) == {} && seen + {} == seen;
    forall i | 0 < i < |app| ensures seen + Seen(app[..i]) == seen + {id} + Seen(app[1..][..i - 1]) {
      assert app[..i] == [app[0]] + app[1..][..i - 1];
    }
    assert forall i :: 0 <= i < |app| - 1 ==> app[1..][i] == app[i + 1] && contract[1..][i] == contract[i + 1];
  }

  lemma HeadRows(c: seq<Row>, r: Row, n: nat, m: nat, left: seq<Row>, right: seq<Row>)
    requires r !in left && r !in right
    ensures c + Repeat(r, n) + left == c + Repeat(r, m) + right <==> n == m && left == right
  {
    RepeatOf(r, n);
    RepeatOf(r, m);
    var a, b := c + Repeat(r, n) + left, c + Repeat(r, m) + right;
    assert multiset(a)[r] == multiset(c)[r] + n && multiset(b)[r] == multiset(c)[r] + m;
    if n == m {
      assert a[|c| + n..] == left && b[|c| + n..] == right;
    }
  }

  lemma {:induction false} CountsDecideRows(s: Scenario, decision: Decision, app: seq<Action>, contract: seq<Action>,
      seen: set<string>)
    requires SameIds(app, contract)
    ensures RowsFrom(s, decision, app, seen) == RowsFrom(s, decision, contract, seen) <==>
      SameCounts(s, app, contract, seen)
  {
    if app != [] {
      var a, b, id, later := app[0], contract[0], app[0].id, seen + {app[0].id};
      SameCountsCons(s, app, contract, seen);
      CountsDecideRows(s, decision, app[1..], contract[1..], later);
      var left, right := RowsFrom(s, decision, app[1..], later), RowsFrom(s, decision, contract[1..], later);
      if Reached(s, id, seen) {
        NoLateArgumentRow(s, decision, app[1..], later, id);
        NoLateArgumentRow(s, decision, contract[1..], later, id);
        var c := if MustConfirm(s, decision, id) then [Row(ConfirmationRequired, id, ScenarioText)] else [];
        HeadRows(c, ArgumentRow(id), Disallowed(a.keys, Allowed(s, id)), Disallowed(b.keys, Allowed(s, id)), left,
          right);
      } else {
        var c := ActionRows(s, decision, a, seen);
        assert (c + left)[|c|..] == left && (c + right)[|c|..] == right;
      }
    }
  }

  /** The exact condition under which the two independently derived lists are equal. */
  lemma {:induction false} AgreeExactly(s: Scenario, decision: Decision, app: seq<Action>, contract: seq<Action>)
    requires SameIds(app, contract)
    ensures Project(Findings(s, decision, app)) == ContractRows(s, decision, contract) <==>
      SameCounts(s, app, contract, {})
  {
    ListProject(s, decision, |app|);
    SameListAgrees(s, decision, app, {});
    ProjectConcat(ListFindings(s, decision, |app|), FindingsFrom(s, decision, app, {}));
    CountsDecideRows(s, decision, app, contract, {});
    var c := ListRows(s, decision, |app|);
    var left, right := RowsFrom(s, decision, app, {}), RowsFrom(s, decision, contract, {});
    assert (c + left)[|c|..] == left && (c + right)[|c|..] == right;
  }

  lemma {:induction false} DisallowedConcat(a: seq<string>, b: seq<string>, allowed: seq<string>)
    ensures Disallowed(a + b, allowed) == Disallowed(a, allowed) + Disallowed(b, allowed)
  {
    if a == [] {
      assert a + b == b;
    } else {
      assert (a + b)[1..] == a[1..] + b;
      DisallowedConcat(a[1..], b, allowed);
    }
  }

  function Without(keys: seq<string>, i: nat): seq<string>
    requires i < |keys|
  {
    keys[..i] + keys[i + 1..]
  }

  lemma DisallowedWithout(keys: seq<string>, i: nat, allowed: seq<string>)
    requires i < |keys|
    ensures Disallowed(keys, allowed) == Disallowed([keys[i]], allowed) + Disallowed(Without(keys, i), allowed)
    ensures multiset(Without(keys, i)) == multiset(keys) - multiset{keys[i]} && |Without(keys, i)| == |keys| - 1
  {
    assert keys == keys[..i] + ([keys[i]] + keys[i + 1..]);
    DisallowedConcat(keys[..i], keys[i + 1..], allowed);
    DisallowedConcat(keys[..i], [keys[i]] + keys[i + 1..], allowed);
    DisallowedConcat([keys[i]], keys[i + 1..], allowed);
    assert multiset(keys) == multiset(keys[..i]) + (multiset{keys[i]} + multiset(keys[i + 1..]));
  }

  /** The order in which a runtime lists the keys does not matter: JavaScript moves integer-like keys to the front. */
  lemma {:induction false} DisallowedIgnoresOrder(a: seq<string>, b: seq<string>, allowed: seq<string>)
    requires multiset(a) == multiset(b)
    ensures Disallowed(a, allowed) == Disallowed(b, allowed)
    decreases |a|
  {
    if a == [] {
      assert |multiset(b)| == 0;
    } else {
      assert a[0] in multiset(b);
      var i :| 0 <= i < |b| && b[i] == a[0];
      DisallowedWithout(a, 0, allowed);
      DisallowedWithout(b, i, allowed);
      DisallowedIgnoresOrder(Without(a, 0), Without(b, i), allowed);
    }
  }

  // ---------- what the contract reads ----------

  /** str.replace(mark, ""): every leftmost occurrence goes, without looking again at what that joins. */
  function Erase(text: string, mark: string): string
    requires mark != []
  {
    if |text| < |mark| then text
    else if text[..|mark|] == mark then Erase(text[|mark|..], mark)
    else [text[0]] + Erase(text[1..], mark)
  }

  const FENCE := "```"
  const JSON_FENCE := "```json"

  /** The contract strips code fences from the whole response text before parsing it, and so from every key. */
  function ContractKey(key: string): string {
    Erase(Erase(key, JSON_FENCE), FENCE)
  }

  /** Keys that become equal are one key of the parsed object, at the place of the first. */
  function ContractKeys(keys: seq<string>): seq<string> {
    if keys == [] then []
    else
      var front, key := ContractKeys(keys[..|keys| - 1]), ContractKey(keys[|keys| - 1]);
      if key in front then front else front + [key]
  }

  predicate Contains(text: string, mark: string) {
    |text| >= |mark| && (text[..|mark|] == mark || (text != [] && Contains(text[1..], mark)))
  }

  lemma {:induction false} EraseNothing(text: string, mark: string)
    requires mark != [] && !Contains(text, mark)
    ensures Erase(text, mark) == text
  {
    if |text| >= |mark| { EraseNothing(text[1..], mark); }
  }

  lemma {:induction false} JsonFenceHoldsFence(key: string)
    requires Contains(key, JSON_FENCE)
    ensures Contains(key, FENCE)
  {
    if key[..|JSON_FENCE|] == JSON_FENCE {
      assert key[..|FENCE|] == key[..|JSON_FENCE|][..|FENCE|] == FENCE;
    } else {
      JsonFenceHoldsFence(key[1..]);
    }
  }

  lemma UnfencedKey(key: string)
    requires !Contains(key, FENCE)
    ensures ContractKey(key) == key
  {
    if Contains(key, JSON_FENCE) { JsonFenceHoldsFence(key); }
    EraseNothing(key, JSON_FENCE);
    EraseNothing(key, FENCE);
  }

  lemma {:induction false} UnfencedKeys(keys: seq<string>)
    requires forall i :: 0 <= i < |keys| ==> !Contains(keys[i], FENCE)
    requires forall i, j :: 0 <= i < j < |keys| ==> keys[i] != keys[j]
    ensures ContractKeys(keys) == keys
  {
    if keys != [] {
      UnfencedKeys(keys[..|keys| - 1]);
      UnfencedKey(keys[|keys| - 1]);
    }
  }

  /** `app` and `contract` are one stored proposal, as each side lists it; `text` keeps the keys in textual order. */
  predicate OneProposal(text: seq<Action>, app: seq<Action>, contract: seq<Action>) {
    && SameIds(text, app) && SameIds(text, contract)
    && forall i :: 0 <= i < |text| ==>
         && (forall j, k :: 0 <= j < k < |text[i].keys| ==> text[i].keys[j] != text[i].keys[k])
         && multiset(app[i].keys) == multiset(text[i].keys)
         && contract[i].keys == ContractKeys(text[i].keys)
  }

  /** As long as no argument key holds a code fence, the stored findings are the ones the reader expects. */
  lemma {:induction false} UnfencedAgree(s: Scenario, decision: Decision, text: seq<Action>, app: seq<Action>,
      contract: seq<Action>)
    requires OneProposal(text, app, contract)
    requires forall i, j :: 0 <= i < |text| && 0 <= j < |text[i].keys| ==> !Contains(text[i].keys[j], FENCE)
    ensures Project(Findings(s, decision, app)) == ContractRows(s, decision, contract)
  {
    forall i | 0 <= i < |app| && Reached(s, app[i].id, Seen(app[..i]))
      ensures Disallowed(app[i].keys, Allowed(s, app[i].id)) == Disallowed(contract[i].keys, Allowed(s, app[i].id))
    {
      UnfencedKeys(text[i].keys);
      DisallowedIgnoresOrder(app[i].keys, contract[i].keys, Allowed(s, app[i].id));
    }
    assert forall i :: 0 <= i < |app| ==> {} + Seen(app[..i]) == Seen(app[..i]);
    AgreeExactly(s, decision, app, contract);
  }

  lemma FencedPath()
    ensures ContractKey("```path") == "path"
  {
    var key := "```path";
    assert key[..7][3] != JSON_FENCE[3];
    assert |key[1..]| < |JSON_FENCE|;
    EraseNothing(key, JSON_FENCE);
    assert key[..3] == FENCE && key[3..] == "path";
    assert "path"[..3][0] != FENCE[0] && "path"[1..][..3][0] != FENCE[0];
    EraseNothing("path", FENCE);
  }

  /** A fenced key that strips to an allowed one: the reader finds it forbidden, the contract does not. */
  lemma FencedKeyDisagrees(fenced: string, path: string, id: string)
    requires fenced == "```path" && path == "path"
    ensures
      var s := Scenario([Definition(id, [path], false)], [], [], 1);
      var app, contract := [Action(id, [fenced])], [Action(id, [path])];
      && OneProposal(app, app, contract)
      && Project(Findings(s, ProposeAction, app)) != ContractRows(s, ProposeAction, contract)
  {
    var d := Definition(id, [path], false);
    var s := Scenario([d], [], [], 1);
    var app, contract := [Action(id, [fenced])], [Action(id, [path])];
    FencedPath();
    assert [fenced][..0] == [] && ContractKeys([fenced]) == [path];
    assert [d][..0] == [] && Catalog([d]) == map[id := d];
    assert |fenced| != |path|;
    assert Disallowed([fenced], [path]) == 1 && Disallowed([path], [path]) == 0;
    assert app[..0] == [] && Reached(s, app[0].id, {} + Seen(app[..0]));
    assert !SameCounts(s, app, contract, {});
    AgreeExactly(s, ProposeAction, app, contract);
  }
}
