/** What a ledger row points to: the trajectory of the agent run it records. */
module LedgerRecords {
  import opened Wrappers
  import opened GuardModel
  import opened PaymentRules
  import opened RecoveryTools
  import opened RuleStore
  import opened PipelineModel
  import opened PipelineRuns
  import A = AgentLoop

  // ---------------------------------------------------------------- trajectories

  /** A row for an agent run, and no other, names a trajectory, and says what that trajectory says. */
  predicate NamesTrajectory(fields: Fields, kept: seq<Trajectory>) {
    match fields.trajectoryId
    case None => fields.path != Llm
    case Some(t) =>
      && fields.path == Llm && t < |kept|
      && fields.action == kept[t].resolution
      && fields.outcome == OutcomeName(kept[t].outcome)
      && fields.status == EffectStatus(kept[t].steps)
  }

  /** No two rows name the same trajectory. */
  ghost predicate NamesApart(ledger: seq<LedgerRow>) {
    forall i, j :: 0 <= i < j < |ledger| && ledger[i].fields.trajectoryId.Some? ==>
      ledger[i].fields.trajectoryId != ledger[j].fields.trajectoryId
  }

  ghost predicate NamesAll(ledger: seq<LedgerRow>, kept: seq<Trajectory>) {
    forall i :: 0 <= i < |ledger| ==> NamesTrajectory(ledger[i].fields, kept)
  }

  lemma MoreTrajectories(ledger: seq<LedgerRow>, kept: seq<Trajectory>, more: seq<Trajectory>)
    requires NamesAll(ledger, kept)
    ensures NamesAll(ledger, kept + more)
  {
    forall i | 0 <= i < |ledger| ensures NamesTrajectory(ledger[i].fields, kept + more) {
      assert NamesTrajectory(ledger[i].fields, kept);
    }
  }

  /** A row added with the trajectory of its own attempt. */
  lemma OneMoreRow(ledger: seq<LedgerRow>, kept: seq<Trajectory>, row: LedgerRow, more: seq<Trajectory>)
    requires NamesAll(ledger, kept) && NamesApart(ledger)
    requires NamesTrajectory(row.fields, kept + more)
    requires row.fields.trajectoryId.Some? ==> row.fields.trajectoryId.value >= |kept|
    ensures NamesAll(ledger + [row], kept + more) && NamesApart(ledger + [row])
  {
    MoreTrajectories(ledger, kept, more);
    forall i | 0 <= i < |ledger| && ledger[i].fields.trajectoryId.Some?
      ensures ledger[i].fields.trajectoryId != row.fields.trajectoryId
    {
      assert NamesTrajectory(ledger[i].fields, kept);
    }
  }

  /** What an attempt records agrees with the trajectory it saved. */
  ghost predicate RecordsItself(a: Attempt, kept: seq<Trajectory>) {
    a.fields.Some? ==>
      && NamesTrajectory(a.fields.value, kept + Kept(a))
      && (a.fields.value.trajectoryId.Some? ==> a.fields.value.trajectoryId.value >= |kept|)
  }

  lemma AgentRecordsItself(settings: Settings, sys: System, kept: seq<Trajectory>, c: RecoveryCase, p: Provider,
                           w: Work)
    ensures RecordsItself(RunAgent(settings, sys, |kept|, c, p, w), kept)
  {
    var a := RunAgent(settings, sys, |kept|, c, p, w);
    if a.saved.Some? { assert (kept + Kept(a))[|kept|] == a.saved.value; }
  }

  lemma RuleRecordsItself(settings: Settings, sys: System, kept: seq<Trajectory>, c: RecoveryCase, p: Provider, w: Work,
                          rule: LoadedRule)
    ensures RecordsItself(RunRule(settings, sys, c, p, w, rule), kept)
  {
    var a := RunRule(settings, sys, c, p, w, rule);
    if a.fields.Some? { assert a.fields.value.path == Path.Deterministic && a.fields.value.trajectoryId == None; }
  }

  lemma ActRecordsItself(settings: Settings, sys: System, kept: seq<Trajectory>, e: InternalEvent, p: Provider,
                         payment: Payment, history: Option<History>, w: Work)
    ensures RecordsItself(Act(settings, sys, |kept|, e, p, payment, history, w), kept)
  {
    var c := CaseOf(e, payment);
    var chosen := Chosen(w.rules, PAYMENT_SCHEMA, BuildContext(e, payment.paymentMethod, history, w.hours));
    if chosen.Some? { RuleRecordsItself(settings, sys, kept, c, p, w, chosen.value); }
    else { AgentRecordsItself(settings, sys, kept, c, p, w); }
  }

  lemma AttemptRecordsItself(settings: Settings, sys: System, kept: seq<Trajectory>, e: InternalEvent, w: Work)
    ensures RecordsItself(RouteAndAct(settings, sys, |kept|, e, w), kept)
  {
    if w.provider.Some? {
      var p := w.provider.value;
      var found := p.payment(0, e.paymentId);
      if found.Found? && HistoryFor(p, found.value.customerId).Some? {
        ActRecordsItself(settings, sys, kept, e, p, found.value, HistoryFor(p, found.value.customerId).value, w);
      }
    }
  }

  lemma ProcessKeepsNames(settings: Settings, l: Live, id: nat, w: Work)
    requires NamesAll(l.ledger, l.trajectories) && NamesApart(l.ledger)
    ensures var l' := Process(settings, l, id, w).0; NamesAll(l'.ledger, l'.trajectories) && NamesApart(l'.ledger)
  {
    if ForEvent(l.ledger, id).None? && id < |l.events| && l.events[id].isFailure {
      var e := l.events[id];
      if ProcessedDelivery(l.ledger, e.provider, e.eventId).Some? {
        OneMoreRow(l.ledger, l.trajectories, RowFor(id, e, REDELIVERED), []);
        assert l.trajectories + [] == l.trajectories;
      } else {
        var a := RouteAndAct(settings, l.sys, |l.trajectories|, e, w);
        AttemptRecordsItself(settings, l.sys, l.trajectories, e, w);
        OneMoreRow(l.ledger, l.trajectories, RowFor(id, e, if a.fields.Some? then a.fields.value else FAILED), Kept(a));
      }
    }
  }

  /** Over every run, with deaths before or after a trajectory was saved: each row of an agent run names a
      trajectory of its own, which says the row's action, outcome and status; no other row names one. */
  lemma {:induction false} RowsNameTheirTrajectories(settings: Settings, hs: seq<Happening>)
    ensures var l := RunLive(settings, hs); NamesAll(l.ledger, l.trajectories) && NamesApart(l.ledger)
  {
    if hs != [] {
      var init, h := hs[..|hs| - 1], hs[|hs| - 1];
      RowsNameTheirTrajectories(settings, init);
      var l := RunLive(settings, init);
      match h
      case Processing(id, w) => ProcessKeepsNames(settings, l, id, w);
      case Died(_, _, _, _, _) => MoreTrajectories(l.ledger, l.trajectories, KeptBy(settings, l, h));
      case _ =>
    }
  }
}
