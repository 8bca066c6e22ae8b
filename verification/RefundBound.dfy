/** How far the distiller's refund gate bounds the amount: it is documented to be strict, and is not. */
module RefundBound {
  import opened Wrappers
  import opened Rules
  import opened Situations
  import opened PaymentRules
  import opened RuleStore
  import opened Distillation
  import opened RuleLifecycle

  /** A bounded precondition bounds the amount of every context it matches. */
  lemma BoundedRefund(rule: Rule, context: Context, threshold: real)
    requires rule.action.name == "refund" && !IsHighValueRefund(rule, threshold) && Matches(rule, context)
    ensures "amount_inr" in context
    ensures AsNumber(context["amount_inr"]).Some? && AsNumber(context["amount_inr"]).value <= threshold
  {
    var i :| 0 <= i < |rule.precondition| && BoundsAmount(rule.precondition[i], threshold);
    assert Holds(rule.precondition[i], context);
  }

  /** Over every run, whatever the proposer answers and whatever statistics accrue: a refund rule the
      distiller has ever activated matches only contexts whose amount is within the approval threshold. */
  lemma ActivatedRefundsAreBounded(u: Setup, rows: seq<RuleRow>, events: seq<Event>, i: nat, context: Context)
    requires ValidSetup(u) && UniqueVersions(rows) && forall j :: 0 <= j < |rows| ==> !RowDistilled(rows[j])
    requires i < |Run(u, Start(rows), events).rows|
    requires var row := Run(u, Start(rows), events).rows[i];
             && RowDistilled(row) && row.status != Shadow
             && Load(row, PAYMENT_SCHEMA).Some?
             && Load(row, PAYMENT_SCHEMA).value.rule.action.name == "refund"
             && Matches(Load(row, PAYMENT_SCHEMA).value.rule, context)
    ensures "amount_inr" in context
    ensures AsNumber(context["amount_inr"]).Some? && AsNumber(context["amount_inr"]).value <= u.threshold
  {
    var s := Run(u, Start(rows), events);
    LifecycleHolds(u, rows, events);
    assert Explained(u, View(s, i), Observed(events));
    BoundedRefund(Load(s.rows[i], PAYMENT_SCHEMA).value.rule, context, u.threshold);
  }

  // ---------------------------------------------------------------- strictly below?

  /** Some predicate on the amount turns t down. */
  predicate RejectsAmount(rule: Rule, t: real) {
    exists i :: 0 <= i < |rule.precondition| && TurnsDown(rule.precondition[i], t)
  }

  predicate TurnsDown(p: Predicate, t: real) {
    p.field == "amount_inr" && !Compare(p.op, Num(t), p.value)
  }

  /** Some context that can occur matches. What can occur is a parameter. */
  ghost predicate Satisfiable(possible: iset<Context>, rule: Rule) {
    exists context :: context in possible && Matches(rule, context)
  }

  /** Contexts as the payment schema types them. */
  ghost const TYPED: iset<Context> := iset context: Context | IsContext(context)

  /** Whatever else can occur can occur with this amount. */
  ghost predicate AmountIsFree(possible: iset<Context>, t: real) {
    forall context :: context in possible ==> context["amount_inr" := Num(t)] in possible
  }

  lemma TypedAmountsAreFree(t: real)
    ensures AmountIsFree(TYPED, t)
  {
    assert IsScalar(Num(t), PAYMENT_SCHEMA.fields["amount_inr"]);
  }

  predicate AmountBelow(context: Context, t: real) {
    && "amount_inr" in context
    && AsNumber(context["amount_inr"]).Some?
    && AsNumber(context["amount_inr"]).value < t
  }

  /** What the gate is documented to ensure. */
  ghost predicate StrictlyBelow(possible: iset<Context>, rule: Rule, t: real) {
    forall context :: context in possible && Matches(rule, context) ==> AmountBelow(context, t)
  }

  /** A comparison sees only the number a value stands for. */
  lemma CompareSeesNumbers(op: Operator, a: Json, b: Json, literal: Json)
    requires AsNumber(a).Some? && AsNumber(a) == AsNumber(b)
    ensures Compare(op, a, literal) <==> Compare(op, b, literal)
  {
    if op == In && literal.Arr? {
      forall i | 0 <= i < |literal.items| ensures Same(a, literal.items[i]) <==> Same(b, literal.items[i]) {}
    }
  }

  /** With the rest of a matching context kept, an amount matches exactly when no predicate turns it down. */
  lemma OnlyTheAmountDecides(rule: Rule, context: Context, t: real)
    requires Matches(rule, context)
    ensures Matches(rule, context["amount_inr" := Num(t)]) <==> !RejectsAmount(rule, t)
  {
    var moved := context["amount_inr" := Num(t)];
    forall i | 0 <= i < |rule.precondition|
      ensures Holds(rule.precondition[i], moved) <==> !TurnsDown(rule.precondition[i], t)
    {
      assert Holds(rule.precondition[i], context);
    }
  }

  lemma MatchingAmountIsAccepted(rule: Rule, context: Context, t: real)
    requires Matches(rule, context) && "amount_inr" in context && AsNumber(context["amount_inr"]) == Some(t)
    ensures !RejectsAmount(rule, t)
  {
    forall i | 0 <= i < |rule.precondition| ensures !TurnsDown(rule.precondition[i], t) {
      assert Holds(rule.precondition[i], context);
      CompareSeesNumbers(rule.precondition[i].op, context["amount_inr"], Num(t), rule.precondition[i].value);
    }
  }

  lemma TurnedDownIsStrict(possible: iset<Context>, rule: Rule, t: real)
    requires rule.action.name == "refund" && !IsHighValueRefund(rule, t) && RejectsAmount(rule, t)
    ensures StrictlyBelow(possible, rule, t)
  {
    forall context | context in possible && Matches(rule, context) ensures AmountBelow(context, t) {
      BoundedRefund(rule, context, t);
      if AsNumber(context["amount_inr"]).value == t { MatchingAmountIsAccepted(rule, context, t); }
    }
  }

  /** When the documented bound does hold, whatever contexts can occur so long as their amount may be the
      threshold: a refund rule the gate lets through matches only amounts strictly below the threshold exactly
      when one of its predicates turns the threshold itself down, or when it matches nothing that can occur. */
  lemma StrictExactly(possible: iset<Context>, rule: Rule, t: real)
    requires rule.action.name == "refund" && !IsHighValueRefund(rule, t) && AmountIsFree(possible, t)
    ensures StrictlyBelow(possible, rule, t) <==> RejectsAmount(rule, t) || !Satisfiable(possible, rule)
  {
    if RejectsAmount(rule, t) {
      TurnedDownIsStrict(possible, rule, t);
    } else if Satisfiable(possible, rule) {
      var context :| context in possible && Matches(rule, context);
      OnlyTheAmountDecides(rule, context, t);
      assert !AmountBelow(context["amount_inr" := Num(t)], t);
    }
  }

  /** In particular over every context of the schema's types. */
  lemma TypedStrictExactly(rule: Rule, t: real)
    requires rule.action.name == "refund" && !IsHighValueRefund(rule, t)
    ensures StrictlyBelow(TYPED, rule, t) <==> RejectsAmount(rule, t) || !Satisfiable(TYPED, rule)
  {
    TypedAmountsAreFree(t);
    StrictExactly(TYPED, rule, t);
  }

  /** "At most the threshold", and nothing else. */
  function AtMost(t: real): Rule {
    Rule([Predicate("amount_inr", Le, Num(t))], RuleAction("refund", map["full" := Bool(false)]))
  }

  /** The failing input, for every threshold: "at most the threshold" conforms to the schema, is not held to
      be high-value, and matches the threshold. */
  lemma AtTheThreshold(t: real)
    ensures Conforms(AtMost(t), PAYMENT_SCHEMA) && !IsHighValueRefund(AtMost(t), t)
    ensures map["amount_inr" := Num(t)] in TYPED && Matches(AtMost(t), map["amount_inr" := Num(t)])
    ensures !StrictlyBelow(TYPED, AtMost(t), t)
  {
    var rule := AtMost(t);
    assert BoundsAmount(rule.precondition[0], t);
    assert ActionConforms(rule.action, PAYMENT_SCHEMA);
    assert PredicateConforms(rule.precondition[0], PAYMENT_SCHEMA);
    assert Matches(rule, map["amount_inr" := Num(t)]);
    assert !AmountBelow(map["amount_inr" := Num(t)], t);
  }

  lemma AmountIsNeverAtMost(key: Situation, action: string, i: nat)
    requires "failure_reason" in key && i < |Compiled(PAYMENT_SCHEMA, key, action).precondition|
    ensures Compiled(PAYMENT_SCHEMA, key, action).precondition[i].op != Le
  {
  }

  /** Rules compiled from a situation key only ever use "less than", so for them the documented bound holds;
      only a proposer that writes its own predicates can reach the threshold. */
  lemma CompiledRefundsAreStrict(possible: iset<Context>, key: Situation, action: string, t: real)
    requires "failure_reason" in key
    requires var rule := Compiled(PAYMENT_SCHEMA, key, action);
             rule.action.name == "refund" && !IsHighValueRefund(rule, t)
    ensures StrictlyBelow(possible, Compiled(PAYMENT_SCHEMA, key, action), t)
  {
    var rule := Compiled(PAYMENT_SCHEMA, key, action);
    var i :| 0 <= i < |rule.precondition| && BoundsAmount(rule.precondition[i], t);
    AmountIsNeverAtMost(key, action, i);
    assert TurnsDown(rule.precondition[i], t);
    TurnedDownIsStrict(possible, rule, t);
  }

  /** Over every run: a refund rule the distiller has ever activated matches only amounts strictly below the
      threshold exactly when it turns the threshold down or matches nothing that can occur. */
  lemma ActivatedStrictExactly(u: Setup, possible: iset<Context>, rows: seq<RuleRow>, events: seq<Event>, i: nat)
    requires ValidSetup(u) && UniqueVersions(rows) && forall j :: 0 <= j < |rows| ==> !RowDistilled(rows[j])
    requires i < |Run(u, Start(rows), events).rows| && AmountIsFree(possible, u.threshold)
    requires var row := Run(u, Start(rows), events).rows[i];
             && RowDistilled(row) && row.status != Shadow
             && Load(row, PAYMENT_SCHEMA).Some?
             && Load(row, PAYMENT_SCHEMA).value.rule.action.name == "refund"
    ensures var rule := Load(Run(u, Start(rows), events).rows[i], PAYMENT_SCHEMA).value.rule;
            StrictlyBelow(possible, rule, u.threshold) <==>
                RejectsAmount(rule, u.threshold) || !Satisfiable(possible, rule)
  {
    var s := Run(u, Start(rows), events);
    LifecycleHolds(u, rows, events);
    assert Explained(u, View(s, i), Observed(events));
    StrictExactly(possible, Load(s.rows[i], PAYMENT_SCHEMA).value.rule, u.threshold);
  }
}
