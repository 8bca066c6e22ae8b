/** The cases the generator draws, and what the exact conditions come to for a rule on amounts over them. */
module GeneratedCases {
  import opened Wrappers
  import opened Rules
  import opened PaymentRules
  import opened RuleStore
  import opened Distillation
  import opened Evaluation
  import opened Meaning
  import opened MeaningExact
  import opened RefundBound

  const GENERATED_METHODS: set<string> := {"card", "upi", "netbanking", "wallet"}

  /** An amount of rupees and paise. */
  predicate WholePaise(amount: real) { (amount * 100.0).Floor as real == amount * 100.0 }

  predicate GeneratedAmount(t: real) { 50.0 <= t <= 200000.0 && WholePaise(t) }

  /** What rules can see of the cases the generator draws. */
  ghost predicate Generated(c: Case) {
    && c.reason in REASONS && c.paymentMethod in GENERATED_METHODS
    && GeneratedAmount(c.amount)
    && c.successes <= 20 && c.failures <= 5
    && c.hours >= 0.0 && WholePaise(c.hours) && 1 <= c.attempt <= 4
  }

  ghost const GENERATED: iset<Context> := iset c: Case | Generated(c) :: ContextOf(c)

  lemma GeneratedOccur(c: Case)
    ensures Occurs(GENERATED, c) <==> Generated(c)
  {
    if Occurs(GENERATED, c) {
      var d: Case :| Generated(d) && ContextOf(d) == ContextOf(c);
      SameContext(c, d);
    }
  }

  lemma SameContext(c: Case, d: Case)
    requires ContextOf(c) == ContextOf(d)
    ensures c.reason == d.reason && c.paymentMethod == d.paymentMethod && c.amount == d.amount
    ensures c.successes == d.successes && c.failures == d.failures && c.hours == d.hours && c.attempt == d.attempt
  {
    var x, y := ContextOf(c), ContextOf(d);
    assert x["failure_reason"] == y["failure_reason"] && x["method"] == y["method"];
    assert x["amount_inr"] == y["amount_inr"] && x["hours_since_last_attempt"] == y["hours_since_last_attempt"];
    assert x["customer_successful_payments"] == y["customer_successful_payments"];
    assert x["customer_failed_payments"] == y["customer_failed_payments"];
    assert x["attempt_number"] == y["attempt_number"];
  }

  // ---------------------------------------------------------------- a rule on amounts

  /** Escalate from some amount on. */
  function AmountRule(threshold: real): Rule {
    Rule([Predicate("amount_inr", Ge, Num(threshold))], RuleAction("escalate_to_human", map[]))
  }

  function AmountRow(priority: int, threshold: real): RuleRow {
    RuleRow("large-amounts", 1, Active, priority, Render(AmountRule(threshold)), SEED_PROVENANCE)
  }

  lemma AmountRowLoads(priority: int, threshold: real)
    ensures var row := AmountRow(priority, threshold);
            Load(row, PAYMENT_SCHEMA) ==
              Some(LoadedRule(row.key, 1, Active, priority, AmountRule(threshold), SEED_PROVENANCE))
  {
    var rule := AmountRule(threshold);
    assert PredicateConforms(rule.precondition[0], PAYMENT_SCHEMA);
    ParseIsExact(Render(rule), PAYMENT_SCHEMA, rule);
  }

  lemma AmountRuleMatches(threshold: real, c: Case)
    ensures Matches(AmountRule(threshold), ContextOf(c)) <==> c.amount >= threshold
  {
    assert Holds(AmountRule(threshold).precondition[0], ContextOf(c)) <==> c.amount >= threshold;
  }

  lemma AmountRuleDecides(priority: int, threshold: real, c: Case)
    ensures var decided := Decided([AmountRow(priority, threshold)], c);
            && (decided.Some? <==> c.amount >= threshold)
            && (decided.Some? ==> decided.value.priority == priority)
  {
    var row := AmountRow(priority, threshold);
    AmountRowLoads(priority, threshold);
    AmountRuleMatches(threshold, c);
    assert [] + [row] == [row];
    ChosenSnoc([], row, PAYMENT_SCHEMA, ContextOf(c));
  }

  /** A generated case of this amount. */
  function OfAmount(amount: real): Case { Case(0, "", "", "", "", "unknown", amount, "card", 0, 0, 0.0, 1) }

  /** Of the cases the generator draws, a rule on amounts decides whole reasons exactly if its threshold
      separates no two of them; at a priority ahead of the distilled rules' it need not. */
  lemma AmountRuleSettles(priority: int, threshold: real)
    ensures Settled(GENERATED, [AmountRow(priority, threshold)]) <==>
            priority <= 50 || threshold <= 50.0 || threshold > 200000.0
  {
    var base := [AmountRow(priority, threshold)];
    if priority <= 50 || threshold <= 50.0 || threshold > 200000.0 {
      forall c: Case, d: Case | Alike(GENERATED, c, d) && Decided(base, c).Some? && Decided(base, c).value.priority > 50
        ensures Decided(base, d).Some?
      {
        AmountRuleDecides(priority, threshold, c);
        AmountRuleDecides(priority, threshold, d);
        GeneratedOccur(c);
        GeneratedOccur(d);
      }
    } else {
      var c, d := OfAmount(200000.0), OfAmount(50.0);
      GeneratedOccur(c);
      GeneratedOccur(d);
      AmountRuleDecides(priority, threshold, c);
      AmountRuleDecides(priority, threshold, d);
      assert Alike(GENERATED, c, d);
    }
  }

  /** With no bounds on amounts, only the priority helps. */
  lemma AmountRuleUnbounded(priority: int, threshold: real)
    ensures Settled(ANYTHING, [AmountRow(priority, threshold)]) <==> priority <= 50
  {
    var base := [AmountRow(priority, threshold)];
    if priority <= 50 {
      PrioritySettles(ANYTHING, base);
    } else {
      var c, d := OfAmount(threshold), OfAmount(threshold - 1.0);
      AmountRuleDecides(priority, threshold, c);
      AmountRuleDecides(priority, threshold, d);
      assert Alike(ANYTHING, c, d);
    }
  }

  /** So an operator's rule on amounts changes what some evaluation decides exactly if it stands behind the
      distilled rules and separates amounts the generator draws. */
  lemma AmountRuleKeepsMeaning(u: Setup, priority: int, threshold: real)
    requires SourcePolicy(u) && Rooted(u)
    ensures AlwaysSameDecisions(u, GENERATED, [AmountRow(priority, threshold)]) <==>
            priority <= 50 || threshold <= 50.0 || threshold > 200000.0
  {
    MeaningIsPreservedExactly(u, GENERATED, [AmountRow(priority, threshold)]);
    AmountRuleSettles(priority, threshold);
  }

  // ---------------------------------------------------------------- the refund bound over them

  lemma GeneratedAmountsAreFree(t: real)
    requires GeneratedAmount(t)
    ensures AmountIsFree(GENERATED, t)
  {
    forall context | context in GENERATED ensures context["amount_inr" := Num(t)] in GENERATED {
      var c: Case :| Generated(c) && ContextOf(c) == context;
      assert ContextOf(c.(amount := t)) == context["amount_inr" := Num(t)];
    }
  }

  /** Over the generated cases the distiller's refund gate is strict exactly if no case has the threshold's
      amount, the rule turns it down, or the rule matches no case. */
  lemma StrictOnGenerated(rule: Rule, t: real)
    requires rule.action.name == "refund" && !IsHighValueRefund(rule, t)
    ensures StrictlyBelow(GENERATED, rule, t) <==>
            !GeneratedAmount(t) || RejectsAmount(rule, t) || !Satisfiable(GENERATED, rule)
  {
    if GeneratedAmount(t) {
      GeneratedAmountsAreFree(t);
      StrictExactly(GENERATED, rule, t);
    } else {
      forall context | context in GENERATED && Matches(rule, context) ensures AmountBelow(context, t) {
        var c: Case :| Generated(c) && ContextOf(c) == context;
        BoundedRefund(rule, context, t);
      }
    }
  }
}
