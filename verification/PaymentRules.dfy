/** The payment vocabulary of the grammar, the situations observations are grouped by, and the rule a
    situation key is compiled to. */
module PaymentRules {
  import opened Wrappers
  import opened Rules
  import opened Situations

  const REASONS: set<string> := {
    "insufficient_funds", "card_declined", "expired_card", "authentication_required",
    "processing_error", "invalid_details", "risk_blocked", "unknown"}

  const METHODS: set<string> := {"card", "upi", "netbanking", "wallet", "emi", "unknown"}

  const PAYMENT_SCHEMA := Schema(
    map["failure_reason" := FieldSpec(Enum, REASONS),
        "amount_inr" := FieldSpec(Number, {}),
        "method" := FieldSpec(Enum, METHODS),
        "customer_successful_payments" := FieldSpec(Number, {}),
        "customer_failed_payments" := FieldSpec(Number, {}),
        "hours_since_last_attempt" := FieldSpec(Number, {}),
        "attempt_number" := FieldSpec(Number, {})],
    map["send_payment_link" := map[],
        "refund" := map["full" := FieldSpec(Boolean, {})],
        "wait_and_retry" := map["delay_hours" := FieldSpec(Number, {})],
        "escalate_to_human" := map[],
        "no_action" := map[]],
    8, 32)

  /** Every field the context carries has its schema's type; any of them may be absent. */
  predicate IsContext(context: Context) {
    forall f :: f in context && f in PAYMENT_SCHEMA.fields ==> IsScalar(context[f], PAYMENT_SCHEMA.fields[f])
  }

  // ---------------------------------------------------------------- situations

  function NumberAt(context: Context, field: string, default: real): real {
    if field in context && context[field].Num? then context[field].n else default
  }

  function TextAt(context: Context, field: string): string {
    if field in context && context[field].Str? then context[field].s else "unknown"
  }

  function BandOf(amount: real): string {
    if amount < 2000.0 then "lt_2000" else if amount < 10000.0 then "2000_10000" else "gte_10000"
  }

  function HistoryOf(failed: real): string {
    if failed >= 3.0 then "many" else if failed >= 1.0 then "some" else "none"
  }

  function SituationFeatures(context: Context): Situation {
    map["failure_reason" := TextAt(context, "failure_reason"),
        "amount_band" := BandOf(NumberAt(context, "amount_inr", 0.0)),
        "failure_history" := HistoryOf(NumberAt(context, "customer_failed_payments", 0.0)),
        "recency" := if NumberAt(context, "hours_since_last_attempt", 999.0) < 1.0 then "recent" else "normal",
        "channel" := TextAt(context, "method")]
  }

  lemma BandsTellTheNumber(n: real)
    ensures (BandOf(n) == "lt_2000" <==> n < 2000.0)
         && (BandOf(n) == "gte_10000" <==> n >= 10000.0)
         && (BandOf(n) == "2000_10000" <==> 2000.0 <= n < 10000.0)
    ensures (HistoryOf(n) == "many" <==> n >= 3.0)
         && (HistoryOf(n) == "some" <==> 1.0 <= n < 3.0)
         && (HistoryOf(n) == "none" <==> n < 1.0)
  {
    assert BandOf(n)[0] in {'l', '2', 'g'} && HistoryOf(n)[0] in {'m', 's', 'n'};
  }

  lemma TextIsKnown(context: Context, field: string)
    requires IsContext(context) && field in PAYMENT_SCHEMA.fields && PAYMENT_SCHEMA.fields[field].kind == Enum
    ensures field in context ==> context[field] == Str(TextAt(context, field))
  {
    if field in context { assert IsScalar(context[field], PAYMENT_SCHEMA.fields[field]); }
  }

  /** The features of a context: its reason and channel, the band of its amount, how often the customer failed
      before, and whether the last attempt was within the hour; what is not known is taken as unknown, nothing,
      never and long ago. */
  lemma FeaturesTellTheContext(context: Context)
    requires IsContext(context)
    ensures var f := SituationFeatures(context);
            && f.Keys == {"failure_reason", "amount_band", "failure_history", "recency", "channel"}
            && (if "failure_reason" in context then context["failure_reason"] == Str(f["failure_reason"])
                else f["failure_reason"] == "unknown")
            && (if "method" in context then context["method"] == Str(f["channel"]) else f["channel"] == "unknown")
    ensures var f, n := SituationFeatures(context), NumberAt(context, "amount_inr", 0.0);
            && (f["amount_band"] == "lt_2000" <==> n < 2000.0)
            && (f["amount_band"] == "gte_10000" <==> n >= 10000.0)
            && (f["amount_band"] == "2000_10000" <==> 2000.0 <= n < 10000.0)
    ensures var f, n := SituationFeatures(context), NumberAt(context, "customer_failed_payments", 0.0);
            && (f["failure_history"] == "many" <==> n >= 3.0)
            && (f["failure_history"] == "some" <==> 1.0 <= n < 3.0)
            && (f["failure_history"] == "none" <==> n < 1.0)
    ensures var f, n := SituationFeatures(context), NumberAt(context, "hours_since_last_attempt", 999.0);
            f["recency"] == if n < 1.0 then "recent" else "normal"
  {
    TextIsKnown(context, "failure_reason");
    TextIsKnown(context, "method");
    BandsTellTheNumber(NumberAt(context, "amount_inr", 0.0));
    BandsTellTheNumber(NumberAt(context, "customer_failed_payments", 0.0));
  }

  // ---------------------------------------------------------------- compiling a key

  function BandPredicates(band: string): seq<Predicate> {
    if band == "lt_2000" then [Predicate("amount_inr", Lt, Num(2000.0))]
    else if band == "2000_10000" then
      [Predicate("amount_inr", Ge, Num(2000.0)), Predicate("amount_inr", Lt, Num(10000.0))]
    else [Predicate("amount_inr", Ge, Num(10000.0))]
  }

  predicate Has(key: Situation, feature: string, value: string) {
    feature in key && key[feature] == value
  }

  function PredicatesForKey(key: Situation): seq<Predicate>
    requires "failure_reason" in key
  {
    [Predicate("failure_reason", Eq, Str(key["failure_reason"]))]
    + (if "amount_band" in key then BandPredicates(key["amount_band"]) else [])
    + (if Has(key, "failure_history", "many") then [Predicate("customer_failed_payments", Ge, Num(3.0))] else [])
    + (if Has(key, "recency", "recent") then [Predicate("hours_since_last_attempt", Lt, Num(1.0))] else [])
    + (if "channel" in key then [Predicate("method", Eq, Str(key["channel"]))] else [])
  }

  function DefaultValue(t: FieldType): Json {
    match t
    case Number => Num(24.0)
    case Boolean => Bool(false)
    case Text => Str("")
    case Enum => Num(0.0)
  }

  function DefaultParams(schema: Schema, action: string): map<string, Json> {
    if action !in schema.actions then map[]
    else map p | p in schema.actions[action] :: DefaultValue(schema.actions[action][p].kind)
  }

  /** The rule a key and its dominant action are compiled to. */
  function Compiled(schema: Schema, key: Situation, action: string): Rule
    requires "failure_reason" in key
  {
    Rule(PredicatesForKey(key), RuleAction(action, DefaultParams(schema, action)))
  }

  /** The suggestion handed to the proposer. */
  function Suggested(schema: Schema, key: Situation, action: string): Json
    requires "failure_reason" in key
  {
    Render(Compiled(schema, key, action))
  }

  // ---------------------------------------------------------------- compiled rules parse

  predicate AllConform(ps: seq<Predicate>) {
    forall i :: 0 <= i < |ps| ==> PredicateConforms(ps[i], PAYMENT_SCHEMA)
  }

  lemma AllConformConcat(ps: seq<Predicate>, qs: seq<Predicate>)
    ensures AllConform(ps + qs) <==> AllConform(ps) && AllConform(qs)
  {
    if AllConform(ps + qs) {
      forall i | 0 <= i < |ps| ensures PredicateConforms(ps[i], PAYMENT_SCHEMA) { assert (ps + qs)[i] == ps[i]; }
      forall i | 0 <= i < |qs| ensures PredicateConforms(qs[i], PAYMENT_SCHEMA) { assert (ps + qs)[|ps| + i] == qs[i]; }
    }
  }

  lemma FeatureConforms(key: Situation, f: string)
    requires f in FEATURES
    ensures AllConform(IfEncoded(key, f)) <==>
            && (f == "failure_reason" && f in key ==> key[f] in REASONS)
            && (f == "channel" && f in key ==> key[f] in METHODS)
  {
    if f in Encoded(key) {
      var ps := FeaturePredicates(key, f);
      assert AllConform(ps) ==> PredicateConforms(ps[0], PAYMENT_SCHEMA);
    }
  }

  /** What a suggested action asks for where the proposer leaves it as it is: wait a day, and never a full refund. */
  lemma DefaultsSay()
    ensures DefaultParams(PAYMENT_SCHEMA, "wait_and_retry") == map["delay_hours" := Num(24.0)]
    ensures DefaultParams(PAYMENT_SCHEMA, "refund") == map["full" := Bool(false)]
    ensures DefaultParams(PAYMENT_SCHEMA, "send_payment_link") == map[]
    ensures DefaultParams(PAYMENT_SCHEMA, "escalate_to_human") == map[]
  {
  }

  lemma DefaultsConform(action: string)
    ensures ActionConforms(RuleAction(action, DefaultParams(PAYMENT_SCHEMA, action)), PAYMENT_SCHEMA)
       <==> action in PAYMENT_SCHEMA.actions
  {
  }

  lemma CompiledConforms(key: Situation, action: string)
    requires "failure_reason" in key
    ensures Conforms(Compiled(PAYMENT_SCHEMA, key, action), PAYMENT_SCHEMA) <==>
            && key["failure_reason"] in REASONS
            && ("channel" in key ==> key["channel"] in METHODS)
            && action in PAYMENT_SCHEMA.actions
  {
    var a, b, c, d, e := IfEncoded(key, "failure_reason"), IfEncoded(key, "amount_band"),
      IfEncoded(key, "failure_history"), IfEncoded(key, "recency"), IfEncoded(key, "channel");
    PredicatesByFeature(key);
    AllConformConcat(a + b + c + d, e);
    AllConformConcat(a + b + c, d);
    AllConformConcat(a + b, c);
    AllConformConcat(a, b);
    FeatureConforms(key, "failure_reason");
    FeatureConforms(key, "amount_band");
    FeatureConforms(key, "failure_history");
    FeatureConforms(key, "recency");
    FeatureConforms(key, "channel");
    DefaultsConform(action);
  }

  /** The suggestion passes validation for every key over known values and every known action, and for no
      other; when it passes it comes back as the rule it was compiled from. */
  lemma SuggestionParses(key: Situation, action: string)
    requires "failure_reason" in key
    ensures ParseRule(Suggested(PAYMENT_SCHEMA, key, action), PAYMENT_SCHEMA) ==
            if && key["failure_reason"] in REASONS
               && ("channel" in key ==> key["channel"] in METHODS)
               && action in PAYMENT_SCHEMA.actions
            then Some(Compiled(PAYMENT_SCHEMA, key, action)) else None
  {
    var r := Compiled(PAYMENT_SCHEMA, key, action);
    var parsed := ParseRule(Render(r), PAYMENT_SCHEMA);
    CompiledConforms(key, action);
    ParseIsExact(Render(r), PAYMENT_SCHEMA, r);
    if parsed.Some? {
      ParseIsExact(Render(r), PAYMENT_SCHEMA, parsed.value);
      RenderHasParams(r, parsed.value);
      RenderIsInjective(r, parsed.value);
    }
  }

  lemma RenderHasParams(r: Rule, t: Rule)
    ensures Render(r) != RenderWithoutParams(t)
  {
    assert Render(r).fields["action"] == RenderAction(r.action);
    assert RenderWithoutParams(t).fields["action"] == Obj(map["name" := Str(t.action.name)]);
    assert "params" in RenderAction(r.action).fields;
  }

  lemma RenderIsInjective(r: Rule, t: Rule)
    requires Render(r) == Render(t)
    ensures r == t
  {
    assert Render(r).fields["precondition"] == RenderPrecondition(r.precondition);
    assert Render(t).fields["precondition"] == RenderPrecondition(t.precondition);
    assert Render(r).fields["action"] == RenderAction(r.action);
    assert Render(t).fields["action"] == RenderAction(t.action);
    assert RenderAction(r.action).fields["name"] == Str(r.action.name);
    assert RenderAction(t.action).fields["name"] == Str(t.action.name);
    assert RenderAction(r.action).fields["params"] == Obj(r.action.params);
    assert RenderAction(t.action).fields["params"] == Obj(t.action.params);
    PreconditionsAreInjective(r.precondition, t.precondition);
  }

  lemma PreconditionsAreInjective(ps: seq<Predicate>, qs: seq<Predicate>)
    requires RenderPrecondition(ps) == RenderPrecondition(qs)
    ensures ps == qs
  {
    var a, b := RenderPrecondition(ps).fields["all"].items, RenderPrecondition(qs).fields["all"].items;
    forall i | 0 <= i < |ps|
      ensures ps[i] == qs[i]
    {
      assert a[i] == RenderPredicate(ps[i]) && b[i] == RenderPredicate(qs[i]);
      assert a[i].fields["field"] == Str(ps[i].field) && b[i].fields["field"] == Str(qs[i].field);
      assert a[i].fields["value"] == ps[i].value && b[i].fields["value"] == qs[i].value;
      assert a[i].fields["op"] == Str(OperatorName(ps[i].op)) && b[i].fields["op"] == Str(OperatorName(qs[i].op));
      OperatorNamesAreUnique(OperatorName(ps[i].op), qs[i].op);
    }
  }

  // ---------------------------------------------------------------- compiled rules mean their key

  const FEATURES: set<string> := {"failure_reason", "amount_band", "failure_history", "recency", "channel"}

  /** A key the feature extractor can produce, restricted to some of its features. */
  predicate IsKey(key: Situation) {
    && "failure_reason" in key
    && key.Keys <= FEATURES
    && ("amount_band" in key ==> key["amount_band"] in {"lt_2000", "2000_10000", "gte_10000"})
    && ("failure_history" in key ==> key["failure_history"] in {"none", "some", "many"})
    && ("recency" in key ==> key["recency"] in {"recent", "normal"})
  }

  /** The part of a key that becomes predicates: of the history only `many`, of the recency only `recent`. */
  function Encoded(key: Situation): set<string> {
    set f | f in key && (f == "failure_history" ==> key[f] == "many") && (f == "recency" ==> key[f] == "recent")
  }

  function FieldOf(feature: string): string {
    match feature
    case "amount_band" => "amount_inr"
    case "failure_history" => "customer_failed_payments"
    case "recency" => "hours_since_last_attempt"
    case "channel" => "method"
    case _ => feature
  }

  predicate AllHold(ps: seq<Predicate>, context: Context) {
    forall i :: 0 <= i < |ps| ==> Holds(ps[i], context)
  }

  lemma AllHoldConcat(ps: seq<Predicate>, qs: seq<Predicate>, context: Context)
    ensures AllHold(ps + qs, context) <==> AllHold(ps, context) && AllHold(qs, context)
  {
    if AllHold(ps + qs, context) {
      forall i | 0 <= i < |ps| ensures Holds(ps[i], context) { assert (ps + qs)[i] == ps[i]; }
      forall i | 0 <= i < |qs| ensures Holds(qs[i], context) { assert (ps + qs)[|ps| + i] == qs[i]; }
    }
  }

  lemma AllHoldOne(p: Predicate, context: Context)
    ensures AllHold([p], context) <==> Holds(p, context)
  {
    assert [p][0] == p;
  }

  lemma BandHolds(band: string, context: Context)
    requires IsContext(context) && band in {"lt_2000", "2000_10000", "gte_10000"}
    ensures AllHold(BandPredicates(band), context) <==>
            "amount_inr" in context && BandOf(NumberAt(context, "amount_inr", 0.0)) == band
  {
    var ps := BandPredicates(band);
    assert ps[0].field == "amount_inr";
    if "amount_inr" in context {
      assert IsScalar(context["amount_inr"], PAYMENT_SCHEMA.fields["amount_inr"]);
      if band == "2000_10000" {
        assert ps[1] == Predicate("amount_inr", Lt, Num(10000.0));
        assert AllHold(ps, context) <==> Holds(ps[0], context) && Holds(ps[1], context);
      }
    }
  }

  /** The three bands partition the amounts: exactly one band's predicates accept any given amount. */
  lemma BandsPartition(context: Context, band: string, other: string)
    requires IsContext(context) && "amount_inr" in context
    requires band in {"lt_2000", "2000_10000", "gte_10000"} && other in {"lt_2000", "2000_10000", "gte_10000"}
    ensures AllHold(BandPredicates(band), context) && AllHold(BandPredicates(other), context) ==> band == other
    ensures AllHold(BandPredicates(BandOf(NumberAt(context, "amount_inr", 0.0))), context)
  {
    BandHolds(band, context);
    BandHolds(other, context);
    BandHolds(BandOf(NumberAt(context, "amount_inr", 0.0)), context);
  }

  /** What one feature of a key contributes to the precondition. */
  function FeaturePredicates(key: Situation, f: string): seq<Predicate>
    requires f in key
  {
    match f
    case "failure_reason" => [Predicate("failure_reason", Eq, Str(key[f]))]
    case "amount_band" => BandPredicates(key[f])
    case "failure_history" => [Predicate("customer_failed_payments", Ge, Num(3.0))]
    case "recency" => [Predicate("hours_since_last_attempt", Lt, Num(1.0))]
    case _ => [Predicate("method", Eq, Str(key[f]))]
  }

  predicate Agrees(key: Situation, context: Context, f: string)
    requires f in key
  {
    FieldOf(f) in context && Has(SituationFeatures(context), f, key[f])
  }

  lemma TextHolds(field: string, value: string, context: Context)
    requires IsContext(context) && (field == "failure_reason" || field == "method")
    ensures AllHold([Predicate(field, Eq, Str(value))], context) <==>
          field in context && TextAt(context, field) == value
  {
    AllHoldOne(Predicate(field, Eq, Str(value)), context);
    if field in context { assert IsScalar(context[field], PAYMENT_SCHEMA.fields[field]); }
  }

  function IfEncoded(key: Situation, f: string): seq<Predicate> {
    if f in Encoded(key) then FeaturePredicates(key, f) else []
  }

  lemma PredicatesByFeature(key: Situation)
    requires "failure_reason" in key
    ensures PredicatesForKey(key) ==
            IfEncoded(key, "failure_reason") + IfEncoded(key, "amount_band") + IfEncoded(key, "failure_history")
            + IfEncoded(key, "recency") + IfEncoded(key, "channel")
  {
  }

  ghost predicate FeatureFaithful(key: Situation, context: Context, f: string) {
    AllHold(IfEncoded(key, f), context) <==> (f in Encoded(key) ==> Agrees(key, context, f))
  }

  lemma ReasonFaithful(key: Situation, context: Context)
    requires IsKey(key) && IsContext(context)
    ensures FeatureFaithful(key, context, "failure_reason")
  {
    TextHolds("failure_reason", key["failure_reason"], context);
  }

  lemma BandFaithful(key: Situation, context: Context)
    requires IsKey(key) && IsContext(context)
    ensures FeatureFaithful(key, context, "amount_band")
  {
    if "amount_band" in key { BandHolds(key["amount_band"], context); }
  }

  lemma HistoryFaithful(key: Situation, context: Context)
    requires IsKey(key) && IsContext(context)
    ensures FeatureFaithful(key, context, "failure_history")
  {
    AllHoldOne(Predicate("customer_failed_payments", Ge, Num(3.0)), context);
    if "customer_failed_payments" in context {
      assert IsScalar(context["customer_failed_payments"], PAYMENT_SCHEMA.fields["customer_failed_payments"]);
    }
  }

  lemma RecencyFaithful(key: Situation, context: Context)
    requires IsKey(key) && IsContext(context)
    ensures FeatureFaithful(key, context, "recency")
  {
    AllHoldOne(Predicate("hours_since_last_attempt", Lt, Num(1.0)), context);
    if "hours_since_last_attempt" in context {
      assert IsScalar(context["hours_since_last_attempt"], PAYMENT_SCHEMA.fields["hours_since_last_attempt"]);
    }
  }

  lemma ChannelFaithful(key: Situation, context: Context)
    requires IsKey(key) && IsContext(context)
    ensures FeatureFaithful(key, context, "channel")
  {
    if "channel" in key { TextHolds("method", key["channel"], context); }
  }

  lemma MatchesByFeature(key: Situation, action: string, context: Context)
    requires "failure_reason" in key
    ensures Matches(Compiled(PAYMENT_SCHEMA, key, action), context) <==>
            && AllHold(IfEncoded(key, "failure_reason"), context)
            && AllHold(IfEncoded(key, "amount_band"), context)
            && AllHold(IfEncoded(key, "failure_history"), context)
            && AllHold(IfEncoded(key, "recency"), context)
            && AllHold(IfEncoded(key, "channel"), context)
  {
    var a, b, c, d, e := IfEncoded(key, "failure_reason"), IfEncoded(key, "amount_band"),
      IfEncoded(key, "failure_history"), IfEncoded(key, "recency"), IfEncoded(key, "channel");
    PredicatesByFeature(key);
    AllHoldConcat(a + b + c + d, e, context);
    AllHoldConcat(a + b + c, d, context);
    AllHoldConcat(a + b, c, context);
    AllHoldConcat(a, b, context);
    assert Matches(Compiled(PAYMENT_SCHEMA, key, action), context) == AllHold(PredicatesForKey(key), context);
  }

  /** For every key and every well-typed context: the compiled rule matches exactly when the context carries
      the encoded fields and its situation has the key's values there. */
  lemma CompiledMeansKey(key: Situation, action: string, context: Context)
    requires IsKey(key) && IsContext(context)
    ensures Matches(Compiled(PAYMENT_SCHEMA, key, action), context) <==>
            forall f :: f in Encoded(key) ==> Agrees(key, context, f)
  {
    MatchesByFeature(key, action, context);
    ReasonFaithful(key, context);
    BandFaithful(key, context);
    HistoryFaithful(key, context);
    RecencyFaithful(key, context);
    ChannelFaithful(key, context);
    assert forall f :: f in Encoded(key) ==> f in FEATURES;
  }

  /** For the keys all of whose features are encoded, such as those the distiller groups by (the reason,
      alone or with the amount band): the compiled rule matches a context carrying the key's fields exactly
      when the context's situation projects to the key. */
  lemma CompiledMeansProjection(key: Situation, action: string, context: Context)
    requires IsKey(key) && IsContext(context) && Encoded(key) == key.Keys
    ensures Matches(Compiled(PAYMENT_SCHEMA, key, action), context) <==>
            && (forall f :: f in key ==> FieldOf(f) in context)
            && Project(SituationFeatures(context), key.Keys) == key
  {
    CompiledMeansKey(key, action, context);
    AgreementIsProjection(key, context);
  }

  lemma AgreementIsProjection(key: Situation, context: Context)
    requires IsKey(key)
    ensures (forall f :: f in key ==> Agrees(key, context, f)) <==>
            && (forall f :: f in key ==> FieldOf(f) in context)
            && Project(SituationFeatures(context), key.Keys) == key
  {
    var projected := Project(SituationFeatures(context), key.Keys);
    assert projected.Keys == key.Keys;
    if forall f :: f in key ==> Agrees(key, context, f) {
      forall f | f in key ensures projected[f] == key[f] && FieldOf(f) in context {
        assert Agrees(key, context, f);
      }
    }
    if projected == key && forall f :: f in key ==> FieldOf(f) in context {
      forall f | f in key ensures Agrees(key, context, f) {
        assert projected[f] == key[f];
      }
    }
  }

  /** A complete context that has every encoded value of the key and none of the unencoded ones. */
  function Overmatch(key: Situation): Context
    requires "failure_reason" in key
  {
    map["failure_reason" := Str(key["failure_reason"]),
        "amount_inr" := Num(if Has(key, "amount_band", "lt_2000") then 0.0
                            else if Has(key, "amount_band", "2000_10000") then 2000.0 else 10000.0),
        "method" := Str(if "channel" in key then key["channel"] else "unknown"),
        "customer_successful_payments" := Num(0.0),
        "customer_failed_payments" := Num(if Has(key, "failure_history", "many") then 3.0
                                          else if Has(key, "failure_history", "none") then 1.0 else 0.0),
        "hours_since_last_attempt" := Num(0.0),
        "attempt_number" := Num(1.0)]
  }

  lemma OvermatchIsContext(key: Situation)
    requires "failure_reason" in key
    requires key["failure_reason"] in REASONS && ("channel" in key ==> key["channel"] in METHODS)
    ensures IsContext(Overmatch(key))
  {
    var context := Overmatch(key);
    forall f | f in context && f in PAYMENT_SCHEMA.fields ensures IsScalar(context[f], PAYMENT_SCHEMA.fields[f]) {
      if f == "failure_reason" {
        assert context[f] == Str(key["failure_reason"]);
      } else if f == "method" {
        assert context[f].Str? && context[f].s in METHODS;
      } else {
        assert context[f].Num? && PAYMENT_SCHEMA.fields[f].kind == Number;
      }
    }
  }

  lemma OvermatchIsComplete(key: Situation)
    requires "failure_reason" in key
    ensures PAYMENT_SCHEMA.fields.Keys == Overmatch(key).Keys
  {
  }

  lemma OvermatchAgrees(key: Situation, f: string)
    requires IsKey(key) && f in Encoded(key)
    ensures Agrees(key, Overmatch(key), f)
  {
    assert f in FEATURES;
  }

  lemma OvermatchDiffers(key: Situation, f: string)
    requires IsKey(key) && f in key && f !in Encoded(key)
    ensures f in SituationFeatures(Overmatch(key)) && SituationFeatures(Overmatch(key))[f] != key[f]
  {
    assert f == "failure_history" || f == "recency";
  }

  /** Any other key over-matches: some complete context satisfies its rule without projecting to it. So the
      compilation means the key exactly when every feature of the key is encoded. */
  lemma UnencodedKeyOvermatches(key: Situation, action: string)
    requires IsKey(key) && Encoded(key) != key.Keys
    requires key["failure_reason"] in REASONS && ("channel" in key ==> key["channel"] in METHODS)
    ensures IsContext(Overmatch(key)) && PAYMENT_SCHEMA.fields.Keys == Overmatch(key).Keys
    ensures Matches(Compiled(PAYMENT_SCHEMA, key, action), Overmatch(key))
    ensures Project(SituationFeatures(Overmatch(key)), key.Keys) != key
  {
    var context := Overmatch(key);
    OvermatchIsContext(key);
    OvermatchIsComplete(key);
    CompiledMeansKey(key, action, context);
    forall f | f in Encoded(key) ensures Agrees(key, context, f) {
      OvermatchAgrees(key, f);
    }
    var f :| f in key && f !in Encoded(key);
    OvermatchDiffers(key, f);
    assert Project(SituationFeatures(context), key.Keys)[f] != key[f];
  }

  // ---------------------------------------------------------------- naming a rule

  /** `k=v` for the key's features in name order, joined by semicolons. */
  function Labels(key: Situation, features: seq<string>): seq<string> {
    if features == [] then []
    else (if features[0] in key then [features[0] + "=" + key[features[0]]] else []) + Labels(key, features[1..])
  }

  function Joined(parts: seq<string>): string {
    if parts == [] then "" else if |parts| == 1 then parts[0] else parts[0] + ";" + Joined(parts[1..])
  }

  const SORTED_FEATURES: seq<string> := ["amount_band", "channel", "failure_history", "failure_reason", "recency"]

  function RuleKey(key: Situation): string {
    "distilled:" + Joined(Labels(key, SORTED_FEATURES))
  }

  /** The keys the distiller builds: the reason, alone or with the amount band. */
  predicate Grouped(key: Situation) {
    IsKey(key) && (key.Keys == {"failure_reason"} || key.Keys == {"failure_reason", "amount_band"})
  }

  lemma ReasonLabel(key: Situation)
    requires Grouped(key)
    ensures Labels(key, ["channel", "failure_history", "failure_reason", "recency"])
        == ["failure_reason=" + key["failure_reason"]]
  {
    assert ["channel", "failure_history", "failure_reason", "recency"]
        == ["channel"] + ["failure_history", "failure_reason", "recency"];
    assert ["failure_history", "failure_reason", "recency"] == ["failure_history"] + ["failure_reason", "recency"];
    assert ["failure_reason", "recency"] == ["failure_reason"] + ["recency"];
    assert ["recency"] + [] == ["recency"];
    LabelsCons(key, "recency", []);
    LabelsCons(key, "failure_reason", ["recency"]);
    LabelsCons(key, "failure_history", ["failure_reason", "recency"]);
    LabelsCons(key, "channel", ["failure_history", "failure_reason", "recency"]);
    assert "failure_reason" + "=" == "failure_reason=";
    assert Labels(key, ["failure_reason", "recency"]) == ["failure_reason=" + key["failure_reason"]];
  }

  lemma RuleKeyText(key: Situation)
    requires Grouped(key)
    ensures RuleKey(key) ==
            "distilled:" + (if "amount_band" in key then "amount_band=" + key["amount_band"] + ";" else "")
            + "failure_reason=" + key["failure_reason"]
  {
    var reason := "failure_reason=" + key["failure_reason"];
    ReasonLabel(key);
    assert SORTED_FEATURES == ["amount_band"] + ["channel", "failure_history", "failure_reason", "recency"];
    LabelsCons(key, "amount_band", ["channel", "failure_history", "failure_reason", "recency"]);
    if "amount_band" in key {
      var band := "amount_band=" + key["amount_band"];
      assert "amount_band" + "=" == "amount_band=";
      assert Labels(key, SORTED_FEATURES) == [band, reason];
      assert [band, reason][1..] == [reason];
      assert Joined([band, reason]) == band + ";" + reason;
    } else {
      assert Labels(key, SORTED_FEATURES) == [reason];
    }
  }

  lemma LabelsCons(key: Situation, f: string, rest: seq<string>)
    ensures Labels(key, [f] + rest) == (if f in key then [f + "=" + key[f]] else []) + Labels(key, rest)
  {
    assert ([f] + rest)[1..] == rest;
  }

  /** Two keys get the same rule key only if they are the same key. */
  lemma RuleKeysAreUnique(key: Situation, other: Situation)
    requires Grouped(key) && Grouped(other) && RuleKey(key) == RuleKey(other)
    ensures key == other
  {
    RuleKeyText(key);
    RuleKeyText(other);
    var a, b := RuleKey(key), RuleKey(other);
    if "amount_band" !in key || "amount_band" !in other {
      assert a[10] == (if "amount_band" in key then 'a' else 'f');
      assert b[10] == (if "amount_band" in other then 'a' else 'f');
      assert a == "distilled:failure_reason=" + key["failure_reason"];
      assert b == "distilled:failure_reason=" + other["failure_reason"];
      assert key["failure_reason"] == a[25..] == b[25..] == other["failure_reason"];
    } else {
      assert a[22] == key["amount_band"][0] && b[22] == other["amount_band"][0];
      assert key["amount_band"] == other["amount_band"];
      var n := 22 + |key["amount_band"]| + 16;
      assert key["failure_reason"] == a[n..] && other["failure_reason"] == b[n..];
    }
    assert key.Keys == other.Keys;
  }
}
