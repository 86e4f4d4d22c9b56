/** Provider reversals over every run: no intent is reversed beyond its credit, an event is allocated at
    most once, and only allocations against the current period move the balance. */
module AccountReversals {
  import opened Common
  import opened Account

  // ---------------------------------------------------------------- how money rows grow

  /** Append-only books; intents keep what they were created with and never leave a terminal state. */
  ghost predicate Grows(f: Funds, g: Funds) {
    && f.ledger <= g.ledger && |f.intents| <= |g.intents|
    && (forall i :: 0 <= i < |f.intents| ==> SameOrigin(f.intents[i], g.intents[i]))
    && (forall i :: |f.intents| <= i < |g.intents| ==> g.intents[i].amount > 0)
  }

  predicate SameOrigin(a: Intent, b: Intent) {
    && b.amount == a.amount && b.reason == a.reason && b.createdAt == a.createdAt
    && b.policyGeneration == a.policyGeneration
    && CanTransition(a.state, b.state) && (Terminal(a.state) ==> b.state == a.state)
  }

  lemma TransitionGrows(s: State, i: nat, to: IntentState, ref: string)
    ensures TransitionIntent(s, i, to, ref).Done? ==> Grows(s.funds, TransitionIntent(s, i, to, ref).state.funds)
  {
  }

  lemma PostGrows(s: State, req: PostIn)
    ensures PostLedgerEntry(s, req).Done? ==> Grows(s.funds, PostLedgerEntry(s, req).state.funds)
  {
    hide RunAutoTopUp;
    var ins := InsertEntry(s.funds, req.direction, req.amount, req.reason, req.key, req.source);
    if ins.Inserted? {
      AutoTopUpGrows(s.(funds := ins.funds), req.now, req.via);
    }
  }

  lemma AutoTopUpGrows(s: State, now: Time, via: Method)
    ensures RunAutoTopUp(s, now, via).Done? ==> Grows(s.funds, RunAutoTopUp(s, now, via).state.funds)
  {
  }

  lemma MoneyGrows(s: State, op: MoneyOp)
    ensures MoneyStep(s, op).Done? ==> Grows(s.funds, MoneyStep(s, op).state.funds)
  {
    hide PostLedgerEntry;
    hide TransitionIntent;
    hide CreateTopUp;
    hide BeginCharge;
    hide NoteReference;
    hide PutPolicy;
    hide DisablePolicy;
    hide BindHistorical;
    hide Allocate;
    hide Grows;
    match op
    case Post(req) => PostGrows(s, req);
    case Transition(i, to, ref) => TransitionGrows(s, i, to, ref);
    case TopUp(req) => TopUpGrows(s, req);
    case Charge(i) => ChargeGrows(s, i);
    case Reference(i, ref) => ReferenceGrows(s, i, ref);
    case Reverse(req) =>
      AllocateGrows(s.(claims := s.claims.(events := s.claims.events + [Reversal(req, None, None)])),
                    |s.claims.events|, None);
      GrowsReflexive(s.funds);
    case Resolve(k, evidence, ok) =>
      if k < |s.claims.events| { AllocateGrows(s, k, Some(evidence)); }
      GrowsReflexive(s.funds);
    case SetPolicy(_, _, _, _, _) => SameRowsGrow(s.funds, MoneyStep(s, op));
    case DropPolicy => SameRowsGrow(s.funds, MoneyStep(s, op));
    case BindPast(_, _, _, _) => GrowsReflexive(s.funds);
  }

  lemma GrowsReflexive(f: Funds)
    ensures Grows(f, f)
  {
  }

  lemma SameRowsGrow(f: Funds, r: Outcome)
    requires r.Done? ==> r.state.funds.ledger == f.ledger && r.state.funds.intents == f.intents
    ensures r.Done? ==> Grows(f, r.state.funds)
  {
  }

  lemma TopUpGrows(s: State, req: TopUpIn)
    ensures CreateTopUp(s, req).Done? ==> Grows(s.funds, CreateTopUp(s, req).state.funds)
  {
  }

  lemma ReferenceGrows(s: State, i: nat, ref: string)
    ensures NoteReference(s, i, ref).Done? ==> Grows(s.funds, NoteReference(s, i, ref).state.funds)
  {
  }

  lemma ChargeGrows(s: State, i: nat)
    ensures BeginCharge(s, i).Done? ==> Grows(s.funds, BeginCharge(s, i).state.funds)
  {
  }

  lemma AllocateGrows(s: State, k: nat, resolution: Option<Id>)
    requires k < |s.claims.events|
    ensures Allocate(s, k, resolution).Done? ==> Grows(s.funds, Allocate(s, k, resolution).state.funds)
  {
    hide Allocate;
  }

  // ---------------------------------------------------------------- the cap

  function Cap(intents: seq<Intent>, i: nat): int {
    if i < |intents| then intents[i].amount else 0
  }

  ghost predicate EventOk(ev: Reversal, ledger: seq<Entry>) {
    && ev.request.amount > 0
    && (ev.allocation.Some? && ev.allocation.value.disposition.CurrentBalance? ==>
          var e := ev.allocation.value.disposition.entry;
          e < |ledger| && ledger[e].direction.Debit? && ledger[e].amount == ev.request.amount
          && ledger[e].key == ReversalKey(ev.request.provider, ev.request.reference))
  }

  ghost predicate Distinct(events: seq<Reversal>) {
    forall j, k :: 0 <= j < k < |events| ==>
      events[j].request.provider != events[k].request.provider
        || events[j].request.reference != events[k].request.reference
  }

  ghost predicate ReversalLaw(f: Funds, events: seq<Reversal>) {
    && (forall i: nat :: AllocatedTo(events, i, -1) <= Cap(f.intents, i))
    && (forall k :: 0 <= k < |events| ==> EventOk(events[k], f.ledger))
    && Distinct(events)
  }

  /** Changing only event k changes the allocated total by exactly that event. */
  lemma {:induction false} AllocatedUpdate(events: seq<Reversal>, k: nat, ev: Reversal, intent: nat)
    requires k < |events| && ev.request == events[k].request
    ensures AllocatedTo(events[k := ev], intent, -1) == AllocatedTo(events, intent, k)
              + if ev.allocation.Some? && ev.request.intent == intent then ev.request.amount else 0
    ensures AllocatedTo(events, intent, -1) == AllocatedTo(events, intent, k)
              + if events[k].allocation.Some? && ev.request.intent == intent then ev.request.amount else 0
  {
    var n := |events| - 1;
    if k < n {
      AllocatedUpdate(events[..n], k, ev, intent);
      assert events[k := ev][..n] == events[..n][k := ev];
    } else {
      assert events[k := ev][..n] == events[..n];
      AllocatedExcept(events[..n], intent, k);
    }
  }

  lemma {:induction false} AllocatedExcept(events: seq<Reversal>, intent: nat, k: int)
    requires k >= |events| || k < 0
    ensures AllocatedTo(events, intent, k) == AllocatedTo(events, intent, -1)
  {
    if |events| > 0 {
      AllocatedExcept(events[..|events| - 1], intent, k);
    }
  }

  lemma AllocateKeepsLaw(s: State, k: nat, resolution: Option<Id>)
    requires k < |s.claims.events| && ReversalLaw(s.funds, s.claims.events) && s.claims.events[k].allocation.None?
    ensures var r := Allocate(s, k, resolution);
            r.Done? ==> ReversalLaw(r.state.funds, r.state.claims.events)
  {
    hide Allocate;
    var r := Allocate(s, k, resolution);
    if r.Done? {
      var events, events' := s.claims.events, r.state.claims.events;
      AllocateRoom(s, k, resolution);
      forall i: nat ensures AllocatedTo(events', i, -1) <= Cap(r.state.funds.intents, i) {
        AllocatedUpdate(events, k, events'[k], i);
        assert AllocatedTo(events, i, -1) <= Cap(s.funds.intents, i);
      }
      AllocateFits(s, k, resolution);
    }
  }

  /** An allocation is made only where the intent still has room for it. */
  lemma AllocateRoom(s: State, k: nat, resolution: Option<Id>)
    requires k < |s.claims.events| && s.claims.events[k].allocation.None?
    ensures var r := Allocate(s, k, resolution);
            var req := s.claims.events[k].request;
            r.Done? && r.state.claims.events[k].allocation.Some? ==>
              AllocatedTo(s.claims.events, req.intent, k) + req.amount <= Cap(s.funds.intents, req.intent)
  {
  }

  lemma AllocateFits(s: State, k: nat, resolution: Option<Id>)
    requires k < |s.claims.events| && s.claims.events[k].allocation.None?
    requires forall j :: 0 <= j < |s.claims.events| ==> EventOk(s.claims.events[j], s.funds.ledger)
    ensures var r := Allocate(s, k, resolution);
            r.Done? ==>
              forall j :: 0 <= j < |r.state.claims.events| ==> EventOk(r.state.claims.events[j], r.state.funds.ledger)
  {
    hide ClassifyReversal;
  }

  lemma {:induction false} FindEventExact(events: seq<Reversal>, provider: string, reference: string)
    requires FindEvent(events, provider, reference).None?
    ensures forall k :: 0 <= k < |events| ==>
              events[k].request.provider != provider || events[k].request.reference != reference
  {
    if |events| > 0 {
      FindEventExact(events[..|events| - 1], provider, reference);
    }
  }

  lemma RecordKeepsLaw(s: State, req: ReversalIn)
    requires ReversalLaw(s.funds, s.claims.events)
    ensures var r := RecordReversal(s, req);
            r.Done? ==> ReversalLaw(r.state.funds, r.state.claims.events)
  {
    hide Allocate;
    if req.amount > 0 && FindEvent(s.claims.events, req.provider, req.reference).None? {
      FindEventExact(s.claims.events, req.provider, req.reference);
      var n := |s.claims.events|;
      var events := s.claims.events + [Reversal(req, None, None)];
      assert events[..n] == s.claims.events;
      assert ReversalLaw(s.funds, events);
      AllocateKeepsLaw(s.(claims := s.claims.(events := events)), n, None);
    }
  }

  lemma GrowthKeepsLaw(f: Funds, g: Funds, events: seq<Reversal>)
    requires ReversalLaw(f, events) && Grows(f, g)
    ensures ReversalLaw(g, events)
  {
    forall i: nat ensures AllocatedTo(events, i, -1) <= Cap(g.intents, i) {
      assert AllocatedTo(events, i, -1) <= Cap(f.intents, i);
    }
    forall k | 0 <= k < |events| ensures EventOk(events[k], g.ledger) {
      assert EventOk(events[k], f.ledger);
    }
  }

  lemma StepKeepsReversals(s: State, op: Op)
    requires ReversalLaw(s.funds, s.claims.events)
    ensures ReversalLaw(Step(s, op).funds, Step(s, op).claims.events)
  {
    hide HandoffStep;
    hide ClosureStep;
    hide PostLedgerEntry;
    hide TransitionIntent;
    hide CreateTopUp;
    hide BeginCharge;
    hide NoteReference;
    hide PutPolicy;
    hide DisablePolicy;
    hide BindHistorical;
    hide RecordReversal;
    hide Allocate;
    if op.OnMoney? && MoneyStep(s, op.money).Done? {
      match op.money
      case Reverse(req) => RecordKeepsLaw(s, req);
      case Resolve(k, evidence, ok) =>
        if k < |s.claims.events| && s.claims.events[k].allocation.None? { AllocateKeepsLaw(s, k, Some(evidence)); }
      case m =>
        MoneyGrows(s, m);
        EventsUntouched(s, m);
        GrowthKeepsLaw(s.funds, MoneyStep(s, m).state.funds, s.claims.events);
    }
  }

  lemma EventsUntouched(s: State, op: MoneyOp)
    requires !op.Reverse? && !op.Resolve?
    ensures MoneyStep(s, op).Done? ==> MoneyStep(s, op).state.claims.events == s.claims.events
  {
    hide TransitionIntent;
    hide CreateTopUp;
    hide BeginCharge;
    hide NoteReference;
    hide PutPolicy;
    hide DisablePolicy;
    hide BindHistorical;
    hide RunAutoTopUp;
    hide InsertEntry;
  }

  /** In every reachable state, for every intent, the reversals allocated against it sum to at most its
      amount, and each current-balance allocation owns one debit entry of exactly its amount. */
  lemma {:induction false} RunKeepsReversals(s: State, ops: seq<Op>)
    requires Init(s)
    ensures ReversalLaw(Run(s, ops).funds, Run(s, ops).claims.events)
  {
    hide Step;
    if |ops| > 0 {
      RunKeepsReversals(s, ops[..|ops| - 1]);
      StepKeepsReversals(Run(s, ops[..|ops| - 1]), ops[|ops| - 1]);
    }
  }

  // ---------------------------------------------------------------- allocated once

  /** Events are only appended, keep their request, and an allocation once made is final. */
  ghost predicate Settled(before: seq<Reversal>, after: seq<Reversal>) {
    && |before| <= |after|
    && forall k :: 0 <= k < |before| ==>
         && after[k].request == before[k].request
         && (before[k].allocation.Some? ==> after[k].allocation == before[k].allocation)
  }

  lemma StepSettles(s: State, op: Op)
    ensures Settled(s.claims.events, Step(s, op).claims.events)
  {
    hide HandoffStep;
    hide ClosureStep;
    hide PostLedgerEntry;
    hide TransitionIntent;
    hide CreateTopUp;
    hide BeginCharge;
    hide NoteReference;
    hide PutPolicy;
    hide DisablePolicy;
    hide BindHistorical;
    hide Allocate;
    if op.OnMoney? && !op.money.Reverse? && !op.money.Resolve? {
      EventsUntouched(s, op.money);
    }
  }

  /** From any state, through any run: an allocated event keeps its one allocation forever. */
  lemma {:induction false} RunSettles(s: State, ops: seq<Op>)
    ensures Settled(s.claims.events, Run(s, ops).claims.events)
  {
    hide Step;
    if |ops| > 0 {
      RunSettles(s, ops[..|ops| - 1]);
      StepSettles(Run(s, ops[..|ops| - 1]), ops[|ops| - 1]);
    }
  }

  /** The balance effect of an allocation: none for a predecessor's period, minus its amount otherwise. */
  lemma AllocationEffect(s: State, op: Op, k: nat)
    requires k < |Step(s, op).claims.events| && Step(s, op).claims.events[k].allocation.Some?
    requires k < |s.claims.events| ==> s.claims.events[k].allocation.None?
    ensures var t := Step(s, op);
            match t.claims.events[k].allocation.value.disposition
            case PredecessorAdjustment => t.funds == s.funds
            case CurrentBalance(e) =>
              && e == |s.funds.ledger| && |t.funds.ledger| == e + 1
              && t.funds.balance == s.funds.balance - t.claims.events[k].request.amount
  {
    hide HandoffStep;
    hide ClosureStep;
    hide PostLedgerEntry;
    hide TransitionIntent;
    hide CreateTopUp;
    hide BeginCharge;
    hide NoteReference;
    hide PutPolicy;
    hide DisablePolicy;
    hide BindHistorical;
    hide Allocate;
    if op.OnMoney? && !op.money.Reverse? && !op.money.Resolve? {
      EventsUntouched(s, op.money);
    }
  }
}
