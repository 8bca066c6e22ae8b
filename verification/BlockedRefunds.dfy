/** Which rules the distiller reports as held back, step by step and over every run. */
module BlockedRefunds {
  import opened Rules
  import opened PaymentRules
  import opened RuleStore
  import opened Distillation
  import opened RuleLifecycle

  predicate NoRepeats(keys: seq<string>) {
    forall i, j :: 0 <= i < j < |keys| ==> keys[i] != keys[j]
  }

  /** A shadow rule whose record would promote it, if it did not refund without bounding the amount. */
  ghost predicate HeldBack(u: Setup, row: RuleRow, hs: seq<Handled>) {
    && row.status == Shadow && row.provenance.createdAt <= |hs|
    && ParseRule(row.definition, PAYMENT_SCHEMA).Some?
    && var rule := ParseRule(row.definition, PAYMENT_SCHEMA).value;
       Qualifies(u, StatsOver(rule, hs[row.provenance.createdAt..])) && IsHighValueRefund(rule, u.threshold)
  }

  ghost predicate HeldBackUnder(u: Setup, rows: seq<RuleRow>, hs: seq<Handled>, key: string) {
    exists i :: 0 <= i < |rows| && RowDistilled(rows[i]) && rows[i].key == key && HeldBack(u, rows[i], hs)
  }

  // ---------------------------------------------------------------- one sweep

  predicate Blocks(u: Setup, s: State, r: LoadedRule) {
    Qualifies(u, Get(s.shadow, r.key)) && IsHighValueRefund(r.rule, u.threshold)
  }

  ghost predicate BlockedBy(u: Setup, s: State, rules: seq<LoadedRule>, key: string) {
    exists r :: r in rules && r.key == key && Blocks(u, s, r)
  }

  lemma {:induction false} PromotingBlocks(u: Setup, s: State, rules: seq<LoadedRule>, key: string)
    requires ValidSetup(u)
    ensures var t := Sweep(u, s, Promoting, rules);
            && (key in t.log.blocked <==> key in s.log.blocked || BlockedBy(u, s, rules, key))
            && (NoRepeats(s.log.blocked) ==> NoRepeats(t.log.blocked))
  {
    if rules != [] {
      var rest, last := rules[..|rules| - 1], rules[|rules| - 1];
      PromotingBlocks(u, s, rest, key);
      DecidingKeepsStats(u, s, Promoting, rest);
      TurnBlocks(u, Sweep(u, s, Promoting, rest), last, key);
      assert rules == rest + [last];
      assert BlockedBy(u, s, rules, key) <==> BlockedBy(u, s, rest, key) || (last.key == key && Blocks(u, s, last)) by {
        assert forall r :: r in rules <==> r in rest || r == last;
      }
    }
  }

  lemma TurnBlocks(u: Setup, s: State, r: LoadedRule, key: string)
    requires ValidSetup(u)
    ensures var t := Touch(u, s, Promoting, r);
            && (key in t.log.blocked <==> key in s.log.blocked || (r.key == key && Blocks(u, s, r)))
            && (NoRepeats(s.log.blocked) ==> NoRepeats(t.log.blocked))
  {
  }

  lemma {:induction false} OthersBlockNothing(u: Setup, s: State, pass: Pass, rules: seq<LoadedRule>)
    requires ValidSetup(u) && !pass.Promoting?
    ensures Sweep(u, s, pass, rules).log.blocked == s.log.blocked
  {
    if rules != [] { OthersBlockNothing(u, s, pass, rules[..|rules| - 1]); }
  }

  // ---------------------------------------------------------------- one step

  lemma {:induction false} DistillingBlocksNothing(u: Setup, s: State, cs: seq<Candidate>)
    ensures var t := DistillAll(u, s, cs);
            && t.log.blocked == s.log.blocked && t.clock == s.clock
            && s.rows <= t.rows && forall i :: |s.rows| <= i < |t.rows| ==> t.rows[i].provenance.createdAt == s.clock
  {
    if cs != [] { DistillingBlocksNothing(u, s, cs[..|cs| - 1]); }
  }

  /** The rules a promotion blocks are the shadow rows held back by what was observed of them. */
  lemma BlockedAreHeldBack(u: Setup, s: State, hs: seq<Handled>, key: string)
    requires ValidSetup(u) && Invariant(u, s, hs)
    ensures BlockedBy(u, s, DistilledRules(s.rows, Shadow), key) <==> HeldBackUnder(u, s.rows, hs, key)
  {
    var rules := DistilledRules(s.rows, Shadow);
    if BlockedBy(u, s, rules, key) {
      var r :| r in rules && r.key == key && Blocks(u, s, r);
      DistilledRulesAreRows(s.rows, Shadow, r);
      var i :| 0 <= i < |s.rows| && RowDistilled(s.rows[i]) && LoadsAs(s.rows[i], Shadow, PAYMENT_SCHEMA, r);
      assert Explained(u, View(s, i), hs);
      assert HeldBack(u, s.rows[i], hs);
    }
    if HeldBackUnder(u, s.rows, hs, key) {
      var i :| 0 <= i < |s.rows| && RowDistilled(s.rows[i]) && s.rows[i].key == key && HeldBack(u, s.rows[i], hs);
      assert Explained(u, View(s, i), hs);
      var r := Load(s.rows[i], PAYMENT_SCHEMA).value;
      assert s.rows[i] in s.rows && LoadsAs(s.rows[i], Shadow, PAYMENT_SCHEMA, r);
      ListedExactly(s.rows, Shadow, PAYMENT_SCHEMA, r);
      OnlyDistilledHas(ListByStatus(s.rows, Shadow, PAYMENT_SCHEMA), r);
      assert r in rules && Blocks(u, s, r);
    }
  }

  /** A rule proposed in this very step has no record yet. */
  lemma NewRulesAreNotHeldBack(u: Setup, s: State, hs: seq<Handled>, key: string)
    requires s.clock == |hs|
    ensures var d := Distill(u, s); HeldBackUnder(u, d.rows, hs, key) <==> HeldBackUnder(u, s.rows, hs, key)
  {
    var d := Distill(u, s);
    DistillingBlocksNothing(u, s, Candidates(s.pool));
    forall i | |s.rows| <= i < |d.rows| ensures !HeldBack(u, d.rows[i], hs) {
      assert hs[|hs|..] == [];
    }
    if HeldBackUnder(u, s.rows, hs, key) {
      var i :| 0 <= i < |s.rows| && RowDistilled(s.rows[i]) && s.rows[i].key == key && HeldBack(u, s.rows[i], hs);
      assert d.rows[i] == s.rows[i];
    }
  }

  /** A step adds to the report exactly the keys of the rules held back, each once, and reports nothing else; only
      steps on the cadence report. */
  lemma StepReportsHeldBack(u: Setup, s: State, casesSeen: nat, hs: seq<Handled>, key: string)
    requires ValidSetup(u) && Invariant(u, s, hs)
    ensures var t := Step(u, s, casesSeen);
            && (key in t.log.blocked <==> || key in s.log.blocked
                                          || (casesSeen % u.cadence == 0 && HeldBackUnder(u, s.rows, hs, key)))
            && (NoRepeats(s.log.blocked) ==> NoRepeats(t.log.blocked))
  {
    if casesSeen % u.cadence == 0 {
      var t := s.(casesSeen := casesSeen);
      CasesSeenIsFree(u, s, casesSeen, hs);
      var d := Distill(u, t);
      DistillKeepsInvariant(u, t, Candidates(t.pool), hs);
      DistillingBlocksNothing(u, t, Candidates(t.pool));
      NewRulesAreNotHeldBack(u, t, hs, key);
      BlockedAreHeldBack(u, d, hs, key);
      PromotingBlocks(u, d, DistilledRules(d.rows, Shadow), key);
      OthersBlockNothing(u, Promote(u, d), Demoting, DistilledRules(Promote(u, d).rows, Active));
    }
  }

  // ---------------------------------------------------------------- every run

  /** The moments of a run at which a step reported the key. */
  ghost predicate ReportedIn(u: Setup, rows: seq<RuleRow>, events: seq<Event>, key: string)
    requires ValidSetup(u)
  {
    exists k :: 0 <= k < |events| && ReportedAt(u, rows, events, k, key)
  }

  ghost predicate ReportedAt(u: Setup, rows: seq<RuleRow>, events: seq<Event>, k: nat, key: string)
    requires ValidSetup(u) && k < |events|
  {
    && events[k].Stepping? && events[k].casesSeen % u.cadence == 0
    && HeldBackUnder(u, Run(u, Start(rows), events[..k]).rows, Observed(events[..k]), key)
  }

  /** Over every run: a key is reported exactly if some step on the cadence found its rule held back, and no key is
      reported twice. */
  lemma {:induction false} ReportIsExact(u: Setup, rows: seq<RuleRow>, events: seq<Event>, key: string)
    requires ValidSetup(u) && UniqueVersions(rows) && forall i :: 0 <= i < |rows| ==> !RowDistilled(rows[i])
    ensures var s := Run(u, Start(rows), events);
            && (key in s.log.blocked <==> ReportedIn(u, rows, events, key))
            && NoRepeats(s.log.blocked)
  {
    if events != [] {
      var n := |events| - 1;
      var init, s := events[..n], Run(u, Start(rows), events[..n]);
      ReportIsExact(u, rows, init, key);
      LifecycleHolds(u, rows, init);
      match events[n] {
        case Observing(h) =>
          OthersBlockNothing(u, s.(pool := Pooled(s.pool, h)), Watch(h), Watched(s.rows));
        case Stepping(casesSeen) =>
          StepReportsHeldBack(u, s, casesSeen, Observed(init), key);
      }
      ReportedGrows(u, rows, events, key);
    }
  }

  lemma ReportedGrows(u: Setup, rows: seq<RuleRow>, events: seq<Event>, key: string)
    requires ValidSetup(u) && events != []
    ensures var n := |events| - 1;
            ReportedIn(u, rows, events, key) <==>
            ReportedIn(u, rows, events[..n], key) || ReportedAt(u, rows, events, n, key)
  {
    var n := |events| - 1;
    forall k | 0 <= k < n
      ensures ReportedAt(u, rows, events, k, key) <==> ReportedAt(u, rows, events[..n], k, key)
    {
      assert events[..n][..k] == events[..k];
    }
  }
}
