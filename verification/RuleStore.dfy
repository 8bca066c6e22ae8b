/** Versioned, provenance-carrying rules, and the router over the active ones. */
module RuleStore {
  import opened Wrappers
  import opened Rules
  import opened Situations

  datatype RuleStatus = Shadow | Active | Demoted | Disabled

  datatype Provenance = Provenance(
    origin: string, key: Situation, sources: seq<string>, createdAt: nat,
    promotedAt: Option<nat>, demotedAt: Option<nat>, demotions: seq<(nat, string)>)

  datatype RuleRow = RuleRow(
    key: string, version: nat, status: RuleStatus, priority: int, definition: Json, provenance: Provenance)

  /** A row whose definition has been parsed again. */
  datatype LoadedRule = LoadedRule(
    key: string, version: nat, status: RuleStatus, priority: int, rule: Rule, provenance: Provenance)

  datatype AddResult = AddedVersion(version: nat) | InvalidRule | VersionTaken

  // ---------------------------------------------------------------- writing rows

  /** The version after the highest one the key has. */
  function NextVersion(rows: seq<RuleRow>, key: string): nat {
    if rows == [] then 1
    else
      var next := NextVersion(rows[1..], key);
      if rows[0].key == key && rows[0].version >= next then rows[0].version + 1 else next
  }

  predicate Taken(rows: seq<RuleRow>, key: string, version: nat) {
    exists i :: 0 <= i < |rows| && rows[i].key == key && rows[i].version == version
  }

  ghost predicate UniqueVersions(rows: seq<RuleRow>) {
    forall i, j :: 0 <= i < j < |rows| ==> rows[i].key != rows[j].key || rows[i].version != rows[j].version
  }

  lemma {:induction false} NextVersionIsAbove(rows: seq<RuleRow>, key: string)
    ensures forall i :: 0 <= i < |rows| && rows[i].key == key ==> rows[i].version < NextVersion(rows, key)
    ensures NextVersion(rows, key) == 1
         || exists i :: 0 <= i < |rows| && rows[i].key == key && rows[i].version + 1 == NextVersion(rows, key)
  {
    if rows != [] {
      NextVersionIsAbove(rows[1..], key);
      assert forall i :: 0 < i < |rows| ==> rows[i] == rows[1..][i - 1];
      var next := NextVersion(rows[1..], key);
      if NextVersion(rows, key) == next && next != 1 {
        var i :| 0 <= i < |rows[1..]| && rows[1..][i].key == key && rows[1..][i].version + 1 == next;
        assert rows[i + 1].version + 1 == next;
      }
    }
  }

  function WithStatus(row: RuleRow, status: RuleStatus, now: nat, reason: string): RuleRow {
    var p := row.provenance;
    row.(status := status,
         provenance :=
           if status == Active then p.(promotedAt := Some(now))
           else if status == Demoted then p.(demotedAt := Some(now), demotions := p.demotions + [(now, reason)])
           else p)
  }

  function SetStatusIn(rows: seq<RuleRow>, key: string, version: nat, status: RuleStatus, now: nat, reason: string)
    : seq<RuleRow>
  {
    seq(|rows|, i requires 0 <= i < |rows| =>
      if rows[i].key == key && rows[i].version == version then WithStatus(rows[i], status, now, reason) else rows[i])
  }

  // ---------------------------------------------------------------- reading rows

  /** Parsed again on load: a row whose definition no longer parses is never usable. */
  function Load(row: RuleRow, schema: Schema): Option<LoadedRule> {
    match ParseRule(row.definition, schema)
    case None => None
    case Some(rule) => Some(LoadedRule(row.key, row.version, row.status, row.priority, rule, row.provenance))
  }

  /** After every rule of the same or a lower priority number. */
  function Insert(rules: seq<LoadedRule>, r: LoadedRule): seq<LoadedRule> {
    if rules == [] then [r]
    else if rules[0].priority <= r.priority then [rules[0]] + Insert(rules[1..], r)
    else [r] + rules
  }

  /** The usable rules of a status in ascending priority, in row order among equals. */
  function ListByStatus(rows: seq<RuleRow>, status: RuleStatus, schema: Schema): seq<LoadedRule> {
    if rows == [] then []
    else
      var row := rows[|rows| - 1];
      var earlier := ListByStatus(rows[..|rows| - 1], status, schema);
      var loaded := Load(row, schema);
      if row.status == status && loaded.Some? then Insert(earlier, loaded.value) else earlier
  }

  predicate Ascending(rules: seq<LoadedRule>) {
    forall i, j :: 0 <= i < j < |rules| ==> rules[i].priority <= rules[j].priority
  }

  lemma {:induction false} InsertHas(rules: seq<LoadedRule>, r: LoadedRule, x: LoadedRule)
    ensures x in Insert(rules, r) <==> x in rules || x == r
  {
    if rules != [] && rules[0].priority <= r.priority {
      InsertHas(rules[1..], r, x);
      assert rules == [rules[0]] + rules[1..];
    }
  }

  lemma {:induction false} InsertKeepsOrder(rules: seq<LoadedRule>, r: LoadedRule)
    requires Ascending(rules)
    ensures Ascending(Insert(rules, r))
  {
    if rules != [] && rules[0].priority <= r.priority {
      InsertKeepsOrder(rules[1..], r);
      var rest := Insert(rules[1..], r);
      forall i | 0 <= i < |rest| ensures rules[0].priority <= rest[i].priority {
        InsertHas(rules[1..], r, rest[i]);
        assert rest[i] in rest;
      }
    }
  }

  lemma {:induction false} ListIsAscending(rows: seq<RuleRow>, status: RuleStatus, schema: Schema)
    ensures Ascending(ListByStatus(rows, status, schema))
  {
    if rows != [] {
      var n := |rows| - 1;
      ListIsAscending(rows[..n], status, schema);
      if rows[n].status == status && Load(rows[n], schema).Some? {
        InsertKeepsOrder(ListByStatus(rows[..n], status, schema), Load(rows[n], schema).value);
      }
    }
  }

  predicate LoadsAs(row: RuleRow, status: RuleStatus, schema: Schema, r: LoadedRule) {
    row.status == status && Load(row, schema) == Some(r)
  }

  lemma ListSnoc(rows: seq<RuleRow>, row: RuleRow, status: RuleStatus, schema: Schema, r: LoadedRule)
    ensures r in ListByStatus(rows + [row], status, schema) <==>
            r in ListByStatus(rows, status, schema) || LoadsAs(row, status, schema, r)
  {
    assert (rows + [row])[..|rows|] == rows;
    if row.status == status && Load(row, schema).Some? {
      InsertHas(ListByStatus(rows, status, schema), Load(row, schema).value, r);
    }
  }

  /** A rule is listed exactly when a row of that status loads as it. */
  lemma {:induction false} ListedExactly(rows: seq<RuleRow>, status: RuleStatus, schema: Schema, r: LoadedRule)
    ensures r in ListByStatus(rows, status, schema) <==> exists row :: row in rows && LoadsAs(row, status, schema, r)
  {
    if rows != [] {
      var rest, last := rows[..|rows| - 1], rows[|rows| - 1];
      assert rows == rest + [last];
      ListedExactly(rest, status, schema, r);
      ListSnoc(rest, last, status, schema, r);
      assert last in rows;
    }
  }

  // ---------------------------------------------------------------- the repository

  class RuleRepository {
    const schema: Schema
    var rows: seq<RuleRow>

    constructor (schema: Schema)
      ensures this.schema == schema && rows == []
    {
      this.schema := schema;
      rows := [];
    }

    /** Validates, numbers and inserts a rule. A new version is a new row; no row is ever overwritten. */
    method AddRule(key: string, definition: Json, status: RuleStatus, provenance: Provenance, priority: int,
                   version: Option<nat>) returns (result: AddResult)
      requires UniqueVersions(rows)
      modifies this
      ensures UniqueVersions(rows)
      ensures result.InvalidRule? <==> ParseRule(definition, schema).None?
      ensures result.VersionTaken? <==>
              ParseRule(definition, schema).Some? && version.Some? && Taken(old(rows), key, version.value)
      ensures result.AddedVersion? ==>
              && result.version == (if version.Some? then version.value else NextVersion(old(rows), key))
              && rows == old(rows) + [RuleRow(key, result.version, status, priority, definition, provenance)]
      ensures !result.AddedVersion? ==> rows == old(rows)
    {
      if ParseRule(definition, schema).None? { return InvalidRule; }
      var next := NextVersion(rows, key);
      NextVersionIsAbove(rows, key);
      if version.Some? {
        next := version.value;
        if Taken(rows, key, next) { return VersionTaken; }
      }
      rows := rows + [RuleRow(key, next, status, priority, definition, provenance)];
      return AddedVersion(next);
    }

    /** Moves one row to a status and records when and why; every other row stays as it was. */
    method SetStatus(key: string, version: nat, status: RuleStatus, now: nat, reason: string) returns (found: bool)
      requires UniqueVersions(rows)
      modifies this
      ensures UniqueVersions(rows)
      ensures found <==> Taken(old(rows), key, version)
      ensures rows == SetStatusIn(old(rows), key, version, status, now, reason)
    {
      for i := 0 to |rows|
        invariant rows == old(rows)
        invariant forall j :: 0 <= j < i ==> rows[j].key != key || rows[j].version != version
      {
        if rows[i].key == key && rows[i].version == version {
          rows := rows[i := WithStatus(rows[i], status, now, reason)];
          return true;
        }
      }
      return false;
    }
  }

  // ---------------------------------------------------------------- the router

  datatype Routing = Deterministic(action: RuleAction, key: string, version: nat) | EscalateToAgent

  function FirstMatch(rules: seq<LoadedRule>, context: Context): Option<LoadedRule> {
    if rules == [] then None
    else if Matches(rules[0].rule, context) then Some(rules[0])
    else FirstMatch(rules[1..], context)
  }

  function RoutingOf(found: Option<LoadedRule>): Routing {
    match found
    case None => EscalateToAgent
    case Some(r) => Deterministic(r.rule.action, r.key, r.version)
  }

  function Chosen(rows: seq<RuleRow>, schema: Schema, context: Context): Option<LoadedRule> {
    FirstMatch(ListByStatus(rows, Active, schema), context)
  }

  lemma {:induction false} FirstMatchSkips(rules: seq<LoadedRule>, context: Context, n: nat)
    requires n <= |rules| && forall j :: 0 <= j < n ==> !Matches(rules[j].rule, context)
    ensures FirstMatch(rules, context) == FirstMatch(rules[n..], context)
  {
    if n > 0 {
      FirstMatchSkips(rules[1..], context, n - 1);
      assert rules[1..][n - 1..] == rules[n..];
    }
  }

  method Route(repo: RuleRepository, context: Context) returns (decision: Routing)
    ensures decision == RoutingOf(Chosen(repo.rows, repo.schema, context))
  {
    var rules := ListByStatus(repo.rows, Active, repo.schema);
    for i := 0 to |rules|
      invariant forall j :: 0 <= j < i ==> !Matches(rules[j].rule, context)
    {
      FirstMatchSkips(rules, context, i);
      var matches := Evaluate(rules[i].rule, context);
      if matches {
        return Deterministic(rules[i].rule.action, rules[i].key, rules[i].version);
      }
    }
    FirstMatchSkips(rules, context, |rules|);
    return EscalateToAgent;
  }

  /** An active row that parses and matches. */
  predicate Applies(row: RuleRow, schema: Schema, context: Context) {
    row.status == Active && Load(row, schema).Some? && Matches(Load(row, schema).value.rule, context)
  }

  lemma {:induction false} InsertAndMatch(rules: seq<LoadedRule>, r: LoadedRule, context: Context)
    requires Ascending(rules)
    ensures FirstMatch(Insert(rules, r), context) ==
            var first := FirstMatch(rules, context);
            if Matches(r.rule, context) && (first.None? || r.priority < first.value.priority) then Some(r) else first
  {
    if rules == [] {
      assert [r][1..] == [];
    } else if rules[0].priority <= r.priority {
      InsertAndMatch(rules[1..], r, context);
      assert ([rules[0]] + Insert(rules[1..], r))[1..] == Insert(rules[1..], r);
    } else {
      FirstMatchIsListed(rules, context);
      assert ([r] + rules)[1..] == rules;
    }
  }

  lemma {:induction false} FirstMatchIsListed(rules: seq<LoadedRule>, context: Context)
    ensures var first := FirstMatch(rules, context);
            first.Some? ==> exists i :: 0 <= i < |rules| && rules[i] == first.value && Matches(rules[i].rule, context)
  {
    if rules != [] && !Matches(rules[0].rule, context) {
      FirstMatchIsListed(rules[1..], context);
      var first := FirstMatch(rules[1..], context);
      if first.Some? {
        var i :| 0 <= i < |rules[1..]| && rules[1..][i] == first.value && Matches(rules[1..][i].rule, context);
        assert rules[i + 1] == first.value;
      }
    }
  }

  /** The rule for one more row: it takes over only by matching with a strictly smaller priority number. */
  lemma ChosenSnoc(rows: seq<RuleRow>, row: RuleRow, schema: Schema, context: Context)
    ensures Chosen(rows + [row], schema, context) ==
            var before := Chosen(rows, schema, context);
            if Applies(row, schema, context) && (before.None? || row.priority < before.value.priority)
            then Load(row, schema) else before
  {
    assert (rows + [row])[..|rows|] == rows;
    ListIsAscending(rows, Active, schema);
    if row.status == Active && Load(row, schema).Some? {
      InsertAndMatch(ListByStatus(rows, Active, schema), Load(row, schema).value, context);
    }
  }

  ghost predicate Best(rows: seq<RuleRow>, schema: Schema, context: Context, i: nat)
    requires i < |rows|
  {
    && Applies(rows[i], schema, context)
    && forall j :: 0 <= j < |rows| && Applies(rows[j], schema, context) ==>
         rows[i].priority < rows[j].priority || (rows[i].priority == rows[j].priority && i <= j)
  }

  lemma BestStays(rows: seq<RuleRow>, row: RuleRow, schema: Schema, context: Context, i: nat)
    requires i < |rows| && Best(rows, schema, context, i)
    requires Applies(row, schema, context) ==> rows[i].priority <= row.priority
    ensures Best(rows + [row], schema, context, i)
  {
    assert forall j :: 0 <= j < |rows| ==> (rows + [row])[j] == rows[j];
  }

  lemma BestTakesOver(rows: seq<RuleRow>, row: RuleRow, schema: Schema, context: Context)
    requires Applies(row, schema, context)
    requires forall j :: 0 <= j < |rows| && Applies(rows[j], schema, context) ==> row.priority < rows[j].priority
    ensures Best(rows + [row], schema, context, |rows|)
  {
    assert forall j :: 0 <= j < |rows| ==> (rows + [row])[j] == rows[j];
  }

  /** Routing picks the applicable row of smallest priority number, the oldest among equals, and escalates
      exactly when no row applies. */
  lemma {:induction false} RoutingPicksBest(rows: seq<RuleRow>, schema: Schema, context: Context)
    ensures Chosen(rows, schema, context).None? <==> forall i :: 0 <= i < |rows| ==> !Applies(rows[i], schema, context)
    ensures Chosen(rows, schema, context).Some? ==>
            exists i :: 0 <= i < |rows| && Best(rows, schema, context, i)
                        && Load(rows[i], schema) == Chosen(rows, schema, context)
  {
    if rows != [] {
      var rest, last := rows[..|rows| - 1], rows[|rows| - 1];
      RoutingPicksBest(rest, schema, context);
      assert rows == rest + [last];
      ChosenSnoc(rest, last, schema, context);
      if Chosen(rest, schema, context).Some? {
        var i :| 0 <= i < |rest| && Best(rest, schema, context, i)
            && Load(rest[i], schema) == Chosen(rest, schema, context);
        if Applies(last, schema, context) && last.priority < rest[i].priority {
          BestTakesOver(rest, last, schema, context);
        } else {
          BestStays(rest, last, schema, context, i);
        }
      } else if Applies(last, schema, context) {
        BestTakesOver(rest, last, schema, context);
      }
    }
  }
}
