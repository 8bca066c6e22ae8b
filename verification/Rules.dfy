/** The closed rule grammar: a proposal is untrusted JSON until it parses into a typed rule, and a rule
    is a conjunction of comparisons against a context of primitives. */
module Rules {
  import opened Wrappers

  datatype Json =
    | Null
    | Bool(b: bool)
    | Num(n: real)
    | Str(s: string)
    | Arr(items: seq<Json>)
    | Obj(fields: map<string, Json>)

  type Context = map<string, Json>

  datatype Operator = Eq | Ne | Lt | Le | Gt | Ge | In

  datatype FieldType = Number | Text | Boolean | Enum

  datatype FieldSpec = FieldSpec(kind: FieldType, allowed: set<string>)

  type ParamSpecs = map<string, FieldSpec>

  datatype Schema = Schema(
    fields: map<string, FieldSpec>, actions: map<string, ParamSpecs>, maxPredicates: nat, maxInList: nat)

  /** `value` is a scalar, or an array for `In`. */
  datatype Predicate = Predicate(field: string, op: Operator, value: Json)

  datatype RuleAction = RuleAction(name: string, params: map<string, Json>)

  datatype Rule = Rule(precondition: seq<Predicate>, action: RuleAction)

  function AllowedOperators(t: FieldType): set<Operator> {
    match t
    case Number => {Eq, Ne, Lt, Le, Gt, Ge, In}
    case Text => {Eq, Ne, In}
    case Boolean => {Eq, Ne}
    case Enum => {Eq, Ne, In}
  }

  // ---------------------------------------------------------------- parsing a proposal

  function ParseRule(proposal: Json, schema: Schema): Option<Rule> {
    if !proposal.Obj? || proposal.fields.Keys != {"precondition", "action"} then None
    else
      var precondition := ParsePrecondition(proposal.fields["precondition"], schema);
      var action := ParseAction(proposal.fields["action"], schema);
      if precondition.Some? && action.Some? then Some(Rule(precondition.value, action.value)) else None
  }

  function ParsePrecondition(node: Json, schema: Schema): Option<seq<Predicate>> {
    if !node.Obj? || node.fields.Keys != {"all"} then None
    else
      var predicates := node.fields["all"];
      if !predicates.Arr? || !(1 <= |predicates.items| <= schema.maxPredicates) then None
      else ParsePredicates(predicates.items, schema)
  }

  function ParsePredicates(nodes: seq<Json>, schema: Schema): Option<seq<Predicate>> {
    if nodes == [] then Some([])
    else
      var first := ParsePredicate(nodes[0], schema);
      var rest := ParsePredicates(nodes[1..], schema);
      if first.Some? && rest.Some? then Some([first.value] + rest.value) else None
  }

  function ParsePredicate(node: Json, schema: Schema): Option<Predicate> {
    if !node.Obj? || node.fields.Keys != {"field", "op", "value"} then None
    else
      var name := node.fields["field"];
      if !name.Str? || name.s !in schema.fields then None
      else
        var spec := schema.fields[name.s];
        var op := ParseOperator(node.fields["op"], spec.kind);
        if op.None? then None
        else if !IsLiteral(node.fields["value"], spec, op.value, schema) then None
        else Some(Predicate(name.s, op.value, node.fields["value"]))
  }

  function ParseOperator(raw: Json, t: FieldType): Option<Operator> {
    if !raw.Str? then None
    else
      var op := OperatorNamed(raw.s);
      if op.Some? && op.value in AllowedOperators(t) then op else None
  }

  function OperatorNamed(name: string): Option<Operator> {
    match name
    case "eq" => Some(Eq)
    case "ne" => Some(Ne)
    case "lt" => Some(Lt)
    case "le" => Some(Le)
    case "gt" => Some(Gt)
    case "ge" => Some(Ge)
    case "in" => Some(In)
    case _ => None
  }

  predicate IsLiteral(value: Json, spec: FieldSpec, op: Operator, schema: Schema) {
    if op == In then
      && value.Arr?
      && 1 <= |value.items| <= schema.maxInList
      && forall i :: 0 <= i < |value.items| ==> IsScalar(value.items[i], spec)
    else IsScalar(value, spec)
  }

  /** A literal is taken as it is or refused; a boolean never passes for a number. */
  predicate IsScalar(value: Json, spec: FieldSpec) {
    match spec.kind
    case Number => value.Num?
    case Text => value.Str?
    case Boolean => value.Bool?
    case Enum => value.Str? && value.s in spec.allowed
  }

  function ParseAction(node: Json, schema: Schema): Option<RuleAction> {
    if !node.Obj? || "name" !in node.fields || !(node.fields.Keys <= {"name", "params"}) then None
    else
      var name := node.fields["name"];
      if !name.Str? || name.s !in schema.actions then None
      else
        var specs := schema.actions[name.s];
        var params := if "params" in node.fields then node.fields["params"] else Obj(map[]);
        if !params.Obj? || params.fields.Keys != specs.Keys then None
        else if exists p :: p in specs && !IsScalar(params.fields[p], specs[p]) then None
        else Some(RuleAction(name.s, map p | p in specs :: params.fields[p]))
  }

  // ---------------------------------------------------------------- what a proposal must look like

  function OperatorName(op: Operator): string {
    match op
    case Eq => "eq" case Ne => "ne" case Lt => "lt" case Le => "le"
    case Gt => "gt" case Ge => "ge" case In => "in"
  }

  function RenderPredicate(p: Predicate): Json {
    Obj(map["field" := Str(p.field), "op" := Str(OperatorName(p.op)), "value" := p.value])
  }

  function RenderPrecondition(ps: seq<Predicate>): Json {
    Obj(map["all" := Arr(seq(|ps|, i requires 0 <= i < |ps| => RenderPredicate(ps[i])))])
  }

  function RenderAction(a: RuleAction): Json {
    Obj(map["name" := Str(a.name), "params" := Obj(a.params)])
  }

  /** The one way to write a rule down. */
  function Render(r: Rule): Json {
    Obj(map["precondition" := RenderPrecondition(r.precondition), "action" := RenderAction(r.action)])
  }

  /** The same rule with its empty parameter object left out. */
  function RenderWithoutParams(r: Rule): Json {
    Obj(map["precondition" := RenderPrecondition(r.precondition),
            "action" := Obj(map["name" := Str(r.action.name)])])
  }

  predicate PredicateConforms(p: Predicate, schema: Schema) {
    && p.field in schema.fields
    && p.op in AllowedOperators(schema.fields[p.field].kind)
    && IsLiteral(p.value, schema.fields[p.field], p.op, schema)
  }

  predicate ActionConforms(a: RuleAction, schema: Schema) {
    && a.name in schema.actions
    && a.params.Keys == schema.actions[a.name].Keys
    && forall p :: p in a.params ==> IsScalar(a.params[p], schema.actions[a.name][p])
  }

  predicate Conforms(r: Rule, schema: Schema) {
    && 1 <= |r.precondition| <= schema.maxPredicates
    && (forall i :: 0 <= i < |r.precondition| ==> PredicateConforms(r.precondition[i], schema))
    && ActionConforms(r.action, schema)
  }

  lemma OperatorNamesAreUnique(name: string, op: Operator)
    ensures OperatorNamed(name) == Some(op) <==> name == OperatorName(op)
  {
  }

  lemma ParsePredicateIsExact(node: Json, schema: Schema, p: Predicate)
    ensures ParsePredicate(node, schema) == Some(p) <==> PredicateConforms(p, schema) && node == RenderPredicate(p)
  {
    if ParsePredicate(node, schema) == Some(p) {
      OperatorNamesAreUnique(node.fields["op"].s, p.op);
      assert node.fields == RenderPredicate(p).fields;
    }
    if PredicateConforms(p, schema) && node == RenderPredicate(p) {
      OperatorNamesAreUnique(node.fields["op"].s, p.op);
      assert node.fields.Keys == {"field", "op", "value"};
    }
  }

  /** The node is the predicate written down. */
  predicate Writes(node: Json, p: Predicate, schema: Schema) {
    PredicateConforms(p, schema) && node == RenderPredicate(p)
  }

  lemma {:induction false} ParsePredicatesIsExact(nodes: seq<Json>, schema: Schema, ps: seq<Predicate>)
    ensures ParsePredicates(nodes, schema) == Some(ps) <==>
            |nodes| == |ps| && forall i :: 0 <= i < |ps| ==> Writes(nodes[i], ps[i], schema)
  {
    if nodes == [] {
    } else if ps == [] {
      assert ParsePredicates(nodes, schema) != Some(ps);
    } else {
      ParsePredicateIsExact(nodes[0], schema, ps[0]);
      ParsePredicatesIsExact(nodes[1..], schema, ps[1..]);
      assert ps == [ps[0]] + ps[1..];
      AllWritten(nodes, schema, ps);
    }
  }

  lemma AllWritten(nodes: seq<Json>, schema: Schema, ps: seq<Predicate>)
    requires nodes != [] && ps != []
    ensures (|nodes| == |ps| && forall i :: 0 <= i < |ps| ==> Writes(nodes[i], ps[i], schema)) <==>
            && Writes(nodes[0], ps[0], schema)
            && |nodes[1..]| == |ps[1..]| && forall i :: 0 <= i < |ps[1..]| ==> Writes(nodes[1..][i], ps[1..][i], schema)
  {
    if |nodes| == |ps| {
      forall i | 0 <= i < |ps[1..]| ensures ps[1..][i] == ps[i + 1] && nodes[1..][i] == nodes[i + 1] {}
      forall i | 0 < i < |ps| ensures ps[i] == ps[1..][i - 1] && nodes[i] == nodes[1..][i - 1] {}
    }
  }

  lemma ParsePreconditionIsExact(node: Json, schema: Schema, ps: seq<Predicate>)
    ensures ParsePrecondition(node, schema) == Some(ps) <==>
            && node == RenderPrecondition(ps)
            && 1 <= |ps| <= schema.maxPredicates
            && forall i :: 0 <= i < |ps| ==> PredicateConforms(ps[i], schema)
  {
    if node.Obj? && "all" in node.fields && node.fields["all"].Arr? {
      ParsePredicatesIsExact(node.fields["all"].items, schema, ps);
    }
    if ParsePrecondition(node, schema) == Some(ps) {
      assert node.fields["all"].items == seq(|ps|, i requires 0 <= i < |ps| => RenderPredicate(ps[i]));
      assert node.fields == RenderPrecondition(ps).fields;
    }
  }

  lemma ParseActionIsExact(node: Json, schema: Schema, a: RuleAction)
    ensures ParseAction(node, schema) == Some(a) <==>
            && ActionConforms(a, schema)
            && (node == RenderAction(a) || (a.params == map[] && node == Obj(map["name" := Str(a.name)])))
  {
    if ParseAction(node, schema) == Some(a) {
      var params := if "params" in node.fields then node.fields["params"] else Obj(map[]);
      assert a.params == params.fields;
      if "params" in node.fields {
        assert node.fields == RenderAction(a).fields;
      } else {
        assert node.fields == map["name" := Str(a.name)];
      }
    }
    if ActionConforms(a, schema) && node == RenderAction(a) {
      assert a.params == (map p | p in schema.actions[a.name] :: a.params[p]);
    }
    if ActionConforms(a, schema) && a.params == map[] && node == Obj(map["name" := Str(a.name)]) {
      assert node.fields.Keys == {"name"};
      assert schema.actions[a.name].Keys == {};
    }
  }

  /** Nothing outside the grammar gets in and nothing inside it is kept out: a proposal parses to a rule
      exactly when that rule conforms to the schema and the proposal is that rule written down, with
      nothing added, dropped or coerced. */
  lemma ParseIsExact(proposal: Json, schema: Schema, r: Rule)
    ensures ParseRule(proposal, schema) == Some(r) <==>
            && Conforms(r, schema)
            && (proposal == Render(r) || (r.action.params == map[] && proposal == RenderWithoutParams(r)))
  {
    if proposal.Obj? && "precondition" in proposal.fields && "action" in proposal.fields {
      ParsePreconditionIsExact(proposal.fields["precondition"], schema, r.precondition);
      ParseActionIsExact(proposal.fields["action"], schema, r.action);
      if ParseRule(proposal, schema) == Some(r) {
        if proposal.fields["action"] == RenderAction(r.action) {
          assert proposal.fields == Render(r).fields;
        } else {
          assert proposal.fields == RenderWithoutParams(r).fields;
        }
      }
      if proposal == Render(r) || proposal == RenderWithoutParams(r) {
        assert proposal.fields.Keys == {"precondition", "action"};
      }
    }
  }

  // ---------------------------------------------------------------- evaluating a rule

  /** A number, as comparisons see it: a boolean counts as 0 or 1. */
  function AsNumber(v: Json): Option<real> {
    match v
    case Num(n) => Some(n)
    case Bool(b) => Some(if b then 1.0 else 0.0)
    case _ => None
  }

  /** A context value against a literal; an array literal is a tuple, which no context value equals. */
  predicate Same(actual: Json, literal: Json) {
    if AsNumber(actual).Some? && AsNumber(literal).Some? then AsNumber(actual) == AsNumber(literal)
    else !literal.Arr? && actual == literal
  }

  /** None where the two values have no order. */
  function Below(x: Json, y: Json): Option<bool> {
    if AsNumber(x).Some? && AsNumber(y).Some? then Some(AsNumber(x).value < AsNumber(y).value)
    else if x.Str? && y.Str? then Some(Precedes(x.s, y.s))
    else None
  }

  predicate Precedes(x: string, y: string) {
    if x == [] then y != []
    else if y == [] then false
    else x[0] < y[0] || (x[0] == y[0] && Precedes(x[1..], y[1..]))
  }

  predicate Compare(op: Operator, actual: Json, literal: Json) {
    match op
    case Eq => Same(actual, literal)
    case Ne => !Same(actual, literal)
    case Lt => Below(actual, literal) == Some(true)
    case Gt => Below(literal, actual) == Some(true)
    case Le => Below(literal, actual) == Some(false)
    case Ge => Below(actual, literal) == Some(false)
    case In => literal.Arr? && exists i :: 0 <= i < |literal.items| && Same(actual, literal.items[i])
  }

  /** Text is ordered as a dictionary orders it: strictly, and any two texts one way. */
  lemma {:induction false} TextIsOrdered(x: string, y: string)
    ensures x == y || Precedes(x, y) || Precedes(y, x)
    ensures Precedes(x, y) ==> x != y && !Precedes(y, x)
  {
    if x != [] && y != [] {
      TextIsOrdered(x[1..], y[1..]);
      assert x == [x[0]] + x[1..] && y == [y[0]] + y[1..];
    }
  }

  lemma {:induction false} TextOrderIsTransitive(x: string, y: string, z: string)
    requires Precedes(x, y) && Precedes(y, z)
    ensures Precedes(x, z)
  {
    if x != [] && x[0] == y[0] == z[0] { TextOrderIsTransitive(x[1..], y[1..], z[1..]); }
  }

  predicate Comparable(a: Json, b: Json) { (AsNumber(a).Some? && AsNumber(b).Some?) || (a.Str? && b.Str?) }

  /** The operators against each other: "not equal" denies "equal", "in" is "equal" to some item; of two numbers
      or two texts exactly one of "less", "equal" and "greater" holds, the weak orders add equality, "greater" is
      "less" the other way round; and of anything else no order holds. */
  lemma OperatorsAgree(a: Json, b: Json)
    ensures Compare(Ne, a, b) <==> !Compare(Eq, a, b)
    ensures Compare(In, a, b) <==> b.Arr? && exists i :: 0 <= i < |b.items| && Compare(Eq, a, b.items[i])
    ensures Compare(Gt, a, b) <==> Compare(Lt, b, a)
    ensures Comparable(a, b) ==>
              && (Compare(Le, a, b) <==> Compare(Lt, a, b) || Compare(Eq, a, b))
              && (Compare(Ge, a, b) <==> Compare(Gt, a, b) || Compare(Eq, a, b))
              && (Compare(Lt, a, b) || Compare(Eq, a, b) || Compare(Gt, a, b))
              && !(Compare(Lt, a, b) && Compare(Eq, a, b)) && !(Compare(Gt, a, b) && Compare(Eq, a, b))
              && !(Compare(Lt, a, b) && Compare(Gt, a, b))
    ensures !Comparable(a, b) ==> !Compare(Lt, a, b) && !Compare(Le, a, b) && !Compare(Gt, a, b) && !Compare(Ge, a, b)
  {
    if a.Str? && b.Str? {
      TextIsOrdered(a.s, b.s);
    }
    if b.Arr? {
      forall i | 0 <= i < |b.items| ensures Compare(Eq, a, b.items[i]) <==> Same(a, b.items[i]) {}
    }
  }

  /** What the orders and equality are on numbers and texts. */
  lemma OperatorsOnScalars(m: real, n: real, x: string, y: string)
    ensures Compare(Lt, Num(m), Num(n)) <==> m < n
    ensures Compare(Eq, Num(m), Num(n)) <==> m == n
    ensures Compare(Eq, Str(x), Str(y)) <==> x == y
    ensures Compare(Lt, Str(x), Str(y)) <==> Precedes(x, y)
    ensures !Compare(Eq, Num(m), Str(x)) && !Compare(Eq, Str(x), Num(m))
  {
  }

  predicate Holds(p: Predicate, context: Context) {
    p.field in context && Compare(p.op, context[p.field], p.value)
  }

  /** The conjunction, read in order with an early exit. */
  method Evaluate(rule: Rule, context: Context) returns (matches: bool)
    ensures matches <==> Matches(rule, context)
  {
    for i := 0 to |rule.precondition|
      invariant forall j :: 0 <= j < i ==> Holds(rule.precondition[j], context)
    {
      var p := rule.precondition[i];
      if p.field !in context { return false; }
      if !Compare(p.op, context[p.field], p.value) { return false; }
    }
    return true;
  }

  predicate Matches(rule: Rule, context: Context) {
    forall i :: 0 <= i < |rule.precondition| ==> Holds(rule.precondition[i], context)
  }
}
