/** The live pipeline, run step by step over a guard store and a ledger. */
module Pipeline {
  import opened Wrappers
  import opened GuardModel
  import opened GuardStores
  import opened PaymentRules
  import opened RuleStore
  import opened AgentTools
  import opened RecoveryTools
  import opened PipelineModel
  import A = AgentLoop
  import E = Executor

  class LedgerRepository {
    var rows: seq<LedgerRow>

    constructor ()
      ensures rows == []
    {
      rows := [];
    }

    method Record(row: LedgerRow) returns (id: nat)
      modifies this
      ensures rows == old(rows) + [row] && id == |old(rows)|
    {
      id := |rows|;
      rows := rows + [row];
    }

    method ForEvent(event: nat) returns (found: Option<nat>)
      ensures found == PipelineModel.ForEvent(rows, event)
    {
      var i := |rows|;
      assert rows[..i] == rows;
      while i > 0
        invariant 0 <= i <= |rows|
        invariant PipelineModel.ForEvent(rows, event) == PipelineModel.ForEvent(rows[..i], event)
      {
        assert rows[..i][..i - 1] == rows[..i - 1];
        if rows[i - 1].event == event { return Some(i - 1); }
        i := i - 1;
      }
      return None;
    }

    method ProcessedDelivery(provider: string, eventId: string) returns (found: Option<nat>)
      ensures found == PipelineModel.ProcessedDelivery(rows, provider, eventId)
    {
      if eventId == "" { return None; }
      found := None;
      for i := 0 to |rows|
        invariant found == PipelineModel.ProcessedDelivery(rows[..i], provider, eventId)
      {
        assert rows[..i + 1][..i] == rows[..i];
        if found.None? && Acted(rows[i]) && rows[i].provider == provider && rows[i].eventId == eventId {
          found := Some(i);
        }
      }
      assert rows[..|rows|] == rows;
    }
  }

  class TrajectoryStore {
    var rows: seq<Trajectory>

    constructor ()
      ensures rows == []
    {
      rows := [];
    }

    method Save(t: Trajectory) returns (id: nat)
      modifies this
      ensures rows == old(rows) + [t] && id == |old(rows)|
    {
      id := |rows|;
      rows := rows + [t];
    }
  }

  class RecoveryPipeline {
    const settings: Settings
    const store: GuardStore
    const world: E.World
    const ledger: LedgerRepository
    const trajectories: TrajectoryStore
    var events: seq<InternalEvent>

    ghost predicate Valid()
      reads this, store.Object()
    {
      && store.Valid()
      && store.Object() != world && store.Object() != ledger && store.Object() != trajectories && store.Object() != this
      && world as object != ledger && world as object != trajectories
    }

    ghost function Sys(): System
      reads store.Object(), world
    {
      System(store.Model(), world.performed)
    }

    ghost function Model(): Live
      reads this, store.Object(), world, ledger, trajectories
    {
      Live(events, ledger.rows, trajectories.rows, Sys())
    }

    constructor (settings: Settings, store: GuardStore, world: E.World, ledger: LedgerRepository, kept: TrajectoryStore,
                 events: seq<InternalEvent>)
      requires store.Valid() && store.Object() != world && store.Object() != ledger && store.Object() != kept
      requires world as object != ledger && world as object != kept
      ensures this.settings == settings && this.store == store && this.world == world && this.ledger == ledger
      ensures Valid() && this.trajectories == kept && this.events == events
    {
      this.settings, this.store, this.world, this.ledger, trajectories := settings, store, world, ledger, kept;
      this.events := events;
    }

    /** The one executor both paths use: same handlers, same policy, same store. */
    method BuildExecutor(c: RecoveryCase) returns (executor: E.GuardedExecutor)
      requires Valid()
      ensures fresh(executor) && executor.Valid()
      ensures executor.store == store && executor.world == world && executor.policy == settings.policy
      ensures executor.runId == c.paymentId && executor.handlers == HANDLERS
    {
      executor := new E.GuardedExecutor(c.paymentId, store, settings.policy, world);
      executor.Register("send_payment_link");
      executor.Register("refund");
      executor.Register("escalate_to_human");
    }

    method RunRule(c: RecoveryCase, p: Provider, w: Work, rule: LoadedRule) returns (fields: Option<Fields>)
      requires Valid() && MintsNew(w, store.Model())
      modifies store.Object(), world
      ensures Valid()
      ensures var a := PipelineModel.RunRule(settings, old(Sys()), c, p, w, rule); Sys() == a.sys && fields == a.fields
    {
      var name := rule.rule.action.name;
      var base := Fields(Path.Deterministic, Some(name), "no_effect", None, Some((rule.key, rule.version)), None, None);
      var toolName := RuleTool(name);
      if toolName.None? { return Some(base); }
      var executor := BuildExecutor(c);
      var tool := Tools(c, p)[toolName.value];
      var args := ValidateArgs(tool.params, RuleArgs(c, tool.params));
      if args.None? { return Some(base.(outcome := "failed")); }
      var action := tool.build(0, args.value);
      if action.None? { return None; }
      var reply := executor.Execute(action.value, w.outcomes(0), w.minted(0));
      if !reply.Result? { return None; }
      return Some(base.(status := Some(reply.status), outcome := OutcomeFor(reply.status, action.value.name),
                        approvalId := reply.approvalId));
    }

    method RunAgent(c: RecoveryCase, p: Provider, w: Work) returns (fields: Option<Fields>)
      requires Valid() && MintsNew(w, store.Model())
      modifies store.Object(), world, trajectories
      ensures Valid()
      ensures var a := PipelineModel.RunAgent(settings, old(Sys()), |old(trajectories.rows)|, c, p, w);
              Sys() == a.sys && fields == a.fields && trajectories.rows == old(trajectories.rows) + Kept(a)
    {
      var executor := BuildExecutor(c);
      var loop := new A.AgentLoop(AgentFor(settings, c, p, w), executor);
      var signal := loop.Run();
      if !signal.Stop? { return None; }
      var kept := Trajectory(loop.steps, signal.outcome, loop.resolution);
      var id := trajectories.Save(kept);
      var approvalId := None;
      if signal.outcome == A.AwaitingApproval {
        var pending := store.ListPending(c.paymentId);
        if pending != {} { approvalId := Some(w.latest(pending)); }
      }
      return Some(Fields(Llm, loop.resolution, OutcomeName(signal.outcome), EffectStatus(loop.steps), None, approvalId,
          Some(id)));
    }

    method Act(e: InternalEvent, p: Provider, payment: Payment, history: Option<History>, w: Work)
      returns (fields: Option<Fields>)
      requires Valid() && MintsNew(w, store.Model())
      modifies store.Object(), world, trajectories
      ensures Valid()
      ensures var a := PipelineModel.Act(settings, old(Sys()), |old(trajectories.rows)|, e, p, payment, history, w);
              Sys() == a.sys && fields == a.fields && trajectories.rows == old(trajectories.rows) + Kept(a)
    {
      var c := CaseOf(e, payment);
      var context := BuildContext(e, payment.paymentMethod, history, w.hours);
      var chosen := Chosen(w.rules, PAYMENT_SCHEMA, context);
      if chosen.Some? {
        RuleKeepsNothing(settings, Sys(), c, p, w, chosen.value, trajectories.rows);
        fields := RunRule(c, p, w, chosen.value);
      } else {
        fields := RunAgent(c, p, w);
      }
    }

    /** Enriches the event from the provider's records, routes it, and acts; None where the call raises. */
    method RouteAndAct(e: InternalEvent, w: Work) returns (fields: Option<Fields>)
      requires Valid() && MintsNew(w, store.Model())
      modifies store.Object(), world, trajectories
      ensures Valid()
      ensures var a := PipelineModel.RouteAndAct(settings, old(Sys()), |old(trajectories.rows)|, e, w);
              Sys() == a.sys && fields == a.fields && trajectories.rows == old(trajectories.rows) + Kept(a)
    {
      if w.provider.None? { return None; }
      var p := w.provider.value;
      var found := p.payment(0, e.paymentId);
      if !found.Found? { return None; }
      var history := HistoryFor(p, found.value.customerId);
      if history.None? { return None; }
      fields := Act(e, p, found.value, history.value, w);
    }

    /** Processes one event to exactly one ledger row; None for what is not a payment failure. */
    method Process(id: nat, w: Work) returns (row: Option<nat>)
      requires Valid() && MintsNew(w, store.Model())
      modifies this, ledger, trajectories, store.Object(), world
      ensures Valid()
      ensures (Model(), row) == PipelineModel.Process(settings, old(Model()), id, w)
    {
      row := ledger.ForEvent(id);
      if row.Some? { return; }
      if id >= |events| || !events[id].isFailure { return None; }
      var e := events[id];
      var earlier := ledger.ProcessedDelivery(e.provider, e.eventId);
      if earlier.Some? {
        var n := ledger.Record(RowFor(id, e, REDELIVERED));
        return Some(n);
      }
      var n := ActAndRecord(id, w);
      return Some(n);
    }

    method ActAndRecord(id: nat, w: Work) returns (row: nat)
      requires Valid() && MintsNew(w, store.Model()) && id < |events|
      modifies this, ledger, trajectories, store.Object(), world
      ensures Valid() && row == |old(ledger.rows)|
      ensures Model() == Handled(old(Model()), id,
                PipelineModel.RouteAndAct(settings, old(Sys()), |old(trajectories.rows)|, old(events)[id], w))
    {
      ghost var before := Model();
      ghost var a := PipelineModel.RouteAndAct(settings, Sys(), |trajectories.rows|, events[id], w);
      var acted := RouteAndAct(events[id], w);
      row := RecordAttempt(id, acted, before, a);
    }

    /** Writes the ledger row and the mark of an attempt that was made. */
    method RecordAttempt(id: nat, acted: Option<Fields>, ghost before: Live, ghost a: Attempt) returns (row: nat)
      requires Valid() && id < |events| && acted == a.fields
      requires Model() == before.(sys := a.sys, trajectories := before.trajectories + Kept(a))
      modifies this, ledger
      ensures Valid() && row == |before.ledger| && Model() == Handled(before, id, a)
    {
      var e := events[id];
      var fields := if acted.Some? then acted.value else FAILED;
      row := ledger.Record(RowFor(id, e, fields));
      events := events[id := e.(mark := Some(MarkFor(fields)))];
    }

    method PendingIds(limit: nat) returns (ids: seq<nat>)
      requires Valid()
      ensures ids == DrainIds(Model(), limit)
    {
      var all: seq<nat> := [];
      for i := 0 to |events|
        invariant all == PendingUpTo(Model(), i)
      {
        if events[i].isFailure {
          var row := ledger.ForEvent(i);
          if row.None? { all := all + [i]; }
        }
      }
      return Take(all, limit);
    }

    /** The start-up drain: every pending event, oldest first, up to a limit. */
    method ProcessPending(limit: nat, works: nat -> Work) returns (count: nat)
      requires Valid() && FreshDrain(settings, Model(), DrainIds(Model(), limit), works)
      modifies this, ledger, trajectories, store.Object(), world
      ensures Valid()
      ensures (Model(), count) == Drain(settings, old(Model()), limit, works)
    {
      var ids := PendingIds(limit);
      ProcessEach(ids, works);
      return |ids|;
    }

    method ProcessEach(ids: seq<nat>, works: nat -> Work)
      requires Valid() && FreshDrain(settings, Model(), ids, works)
      modifies this, ledger, trajectories, store.Object(), world
      ensures Valid()
      ensures Model() == ProcessAll(settings, old(Model()), ids, works)
    {
      ghost var l := Model();
      for i := 0 to |ids|
        invariant Valid()
        invariant Model() == ProcessAll(settings, l, ids[..i], works)
      {
        assert ids[..i + 1][..i] == ids[..i];
        FreshDrainAt(settings, l, ids, works, i);
        var _ := Process(ids[i], works(i));
      }
      assert ids[..|ids|] == ids;
    }
  }
}
