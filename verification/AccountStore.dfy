/** The account store as the object it is, for the writers that change the most: each method is one transaction
    (finalizing is two), written in the store's own order, with the rows it has touched put back when it fails.
    The object remembers the steps it took, so every statement about runs holds of it at any time. */
module AccountStore {
  import opened Common
  import opened Evidence
  import opened Account
  import opened AccountHandoff
  import opened AccountClosure

  /** What the call left behind and reported, against the step's outcome. */
  ghost predicate Did(before: State, r: Outcome, after: State, error: Option<StoreError>) {
    && after == (if r.Done? then r.state else before)
    && error == (if r.Done? then None else Some(r.error))
  }

  lemma RunNext(origin: State, ops: seq<Op>, op: Op)
    ensures Run(origin, ops + [op]) == Step(Run(origin, ops), op)
  {
    assert (ops + [op])[..|ops|] == ops;
    hide Step;
  }

  class Store {
    var state: AccountState
    var balance: int
    var version: nat
    var ledger: seq<Entry>
    var intents: seq<Intent>
    var policy: Option<Policy>
    var bindings: map<nat, Binding>
    var events: seq<Reversal>
    var periods: seq<Period>
    var handoffs: map<Id, Handoff>
    var receiptIds: map<Id, SettlementIn>
    var closures: map<Id, Closure>
    var closureReceiptIds: map<Id, ClosureSettlementIn>
    var creation: Option<Creation>
    var env: Env

    ghost const origin: State
    ghost var history: seq<Op>

    ghost function Money(): Funds
      reads this
    {
      Funds(state, balance, version, ledger, intents, policy)
    }

    function View(): State
      reads this
    {
      State(Funds(state, balance, version, ledger, intents, policy), Claims(bindings, events), periods, handoffs,
            receiptIds,
            closures, closureReceiptIds, creation, env)
    }

    ghost predicate Valid()
      reads this
    {
      Init(origin) && View() == Run(origin, history)
    }

    /** A newly provisioned account. */
    constructor (s: State)
      requires Init(s)
      ensures Valid() && View() == s && history == []
    {
      state, balance, version, ledger := s.funds.state, s.funds.balance, s.funds.version, s.funds.ledger;
      intents, policy, bindings, events := s.funds.intents, s.funds.policy, s.claims.bindings, s.claims.events;
      periods, handoffs, receiptIds, closures := s.periods, s.handoffs, s.receiptIds, s.closures;
      closureReceiptIds, creation, env := s.closureReceiptIds, s.creation, s.env;
      origin, history := s, [];
    }

    /** The balance is checked, then the row goes in under its unique key, then the projection follows. */
    method InsertLedgerEntry(direction: Direction, amount: int, reason: LedgerReason, key: Key, source: string)
      returns (error: Option<StoreError>)
      modifies this`balance, this`ledger, this`version
      ensures var r := InsertEntry(old(Money()), direction, amount, reason, key, source);
              && error == (if r.Rejected? then Some(r.error) else None)
              && Money() == (if r.Rejected? then old(Money()) else r.funds)
    {
      var next := ApplyBalance(balance, direction, amount);
      if next.None? { return Some(BalanceOverflow); }
      if HasKey(ledger, key) { return Some(DuplicateKey); }
      ledger := ledger + [Entry(direction, amount, reason, key, source, next.value)];
      balance := next.value;
      version := version + 1;
      return None;
    }

    /** evaluateAutoTopUpTx, after a debit. */
    method AutoTopUpAfterDebit(now: Time, via: Method) returns (error: Option<StoreError>)
      modifies this`intents, this`policy, this`bindings
      ensures Did(old(View()), RunAutoTopUp(old(View()), now, via), View(), error)
    {
      hide AutoCount;
      hide AutoAmount;
      if Fenced(View()) || policy.None? { return None; }
      var p := policy.value;
      if !ValidPolicy(p) { return Some(InvalidPolicy); }
      var since := DayStart(now);
      var decision := EvaluateAutoTopUp(p, balance, now, AutoCount(intents, since), AutoAmount(intents, since),
                                        HasOpen(intents), via.active, via.capable);
      hide EvaluateAutoTopUp;
      if !decision.Trigger? { return None; }
      bindings := Bind(View(), |intents|).bindings;
      intents := intents + [Intent(p.topUp, AutoTopUp, via.provider, None, p.generation, Created, "", now)];
      policy := Some(p.(armed := false, lastTriggered := Some(now), version := p.version + 1));
      return None;
    }

    /** rearmPolicyAfterCreditTx */
    method RearmAfterCredit()
      modifies this`policy, this`state
      ensures View() == Rearm(old(View()))
    {
      if !Fenced(View()) && policy.Some? && policy.value.enabled && balance >= policy.value.threshold {
        var p := policy.value;
        policy := Some(p.(armed := true, version := if p.armed then p.version else p.version + 1));
        if state.AttentionRequired? { state := Active; }
      }
    }

    method PostLedgerEntry(req: PostIn) returns (error: Option<StoreError>)
      requires Valid()
      modifies this
      ensures Valid() && history == old(history) + [OnMoney(Post(req))]
      ensures Did(old(View()), Account.PostLedgerEntry(old(View()), req), View(), error)
    {
      ghost var before := View();
      error := PostTx(req);
      Remember(before, OnMoney(Post(req)), error);
    }

    /** Every completed transaction, failed or not, is a step of the run. */
    ghost method Remember(before: State, op: Op, error: Option<StoreError>)
      requires Init(origin) && before == Run(origin, history) && Did(before, Attempt(before, op), View(), error)
      modifies this`history
      ensures Valid() && history == old(history) + [op]
    {
      RunNext(origin, history, op);
      hide Run;
      hide Attempt;
      history := history + [op];
    }

    method PostTx(req: PostIn) returns (error: Option<StoreError>)
      modifies this`state, this`balance, this`version, this`ledger, this`intents, this`policy, this`bindings
      ensures Did(old(View()), Account.PostLedgerEntry(old(View()), req), View(), error)
    {
      hide RunAutoTopUp;
      hide InsertEntry;
      hide Fenced;
      hide FindEntry;
      hide Rearm;
      if !req.wellFormed { return Some(Conflict); }
      if !CanSettle(req.currency) { return Some(InvalidCurrency); }
      if req.amount <= 0 { return Some(InvalidAmount); }
      if !ValidReason(req.direction, req.reason) { return Some(InvalidReason); }
      if IsSettlementReversal(req.reason) { return Some(ProviderReversalRequired); }
      if state.Closed? { return Some(AccountClosed); }
      var prior := FindEntry(ledger, req.key);
      if prior.Some? {
        var e := ledger[prior.value];
        if e.direction != req.direction || e.amount != req.amount || e.reason != req.reason || e.source != req.source {
          return Some(IdempotencyConflict);
        }
        return None;
      }
      if req.direction.Credit? && Fenced(View()) { return Some(HandoffFenced); }
      var savedBalance, savedLedger, savedVersion := balance, ledger, version;
      error := InsertLedgerEntry(req.direction, req.amount, req.reason, req.key, req.source);
      if error.Some? { return; }
      if req.direction.Credit? {
        RearmAfterCredit();
      } else if state.Active? {
        error := AutoTopUpAfterDebit(req.now, req.via);
        if error.Some? {
          balance, ledger, version := savedBalance, savedLedger, savedVersion;
        }
      }
    }

    // ------------------------------------------------------------ payment intents

    method TransitionIntent(i: nat, to: IntentState, ref: string) returns (error: Option<StoreError>)
      requires Valid()
      modifies this
      ensures Valid() && history == old(history) + [OnMoney(Transition(i, to, ref))]
      ensures Did(old(View()), Account.TransitionIntent(old(View()), i, to, ref), View(), error)
    {
      ghost var before := View();
      error := TransitionTx(i, to, ref);
      Remember(before, OnMoney(Transition(i, to, ref)), error);
    }

    /** transitionIntentTx: the intent, then its credit, then policy and account state. */
    method TransitionTx(i: nat, to: IntentState, ref: string) returns (error: Option<StoreError>)
      modifies this`state, this`balance, this`version, this`ledger, this`intents, this`policy
      ensures Did(old(View()), Account.TransitionIntent(old(View()), i, to, ref), View(), error)
    {
      hide InsertEntry;
      hide AfterSuccess;
      hide AfterNonSuccess;
      hide CanTransition;
      if i >= |intents| { return Some(NotFound); }
      var intent := intents[i];
      if intent.providerRef != "" && ref != "" && intent.providerRef != ref { return Some(Conflict); }
      if intent.state == to { return None; }
      if !CanTransition(intent.state, to) { return Some(InvalidTransition); }
      var moved := intent.(state := to, providerRef := if intent.providerRef == "" then ref else intent.providerRef);
      error := MoveIntent(i, moved);
    }

    method MoveIntent(i: nat, moved: Intent) returns (error: Option<StoreError>)
      requires i < |intents|
      modifies this`state, this`balance, this`version, this`ledger, this`intents, this`policy
      ensures var f := old(Money()).(intents := old(intents)[i := moved]);
              var ins := InsertEntry(f, Credit, moved.amount, PaymentTopUpCredit, IntentKey(i), "payment_worker");
              if !moved.state.Succeeded? then error.None? && Money() == AfterNonSuccess(f, moved)
              else if ins.Rejected? then error == Some(ins.error) && Money() == old(Money())
              else error.None? && Money() == AfterSuccess(ins.funds, moved)
    {
      hide InsertEntry;
      hide AfterSuccess;
      hide AfterNonSuccess;
      var saved := intents;
      intents := intents[i := moved];
      if moved.state.Succeeded? {
        error := InsertLedgerEntry(Credit, moved.amount, PaymentTopUpCredit, IntentKey(i), "payment_worker");
        if error.Some? {
          intents := saved;
          return;
        }
        SettlePolicyAfterSuccess(moved);
      } else {
        SettlePolicyAfterFailure(moved);
        error := None;
      }
    }

    method SettlePolicyAfterSuccess(intent: Intent)
      modifies this`policy, this`state
      ensures Money() == AfterSuccess(old(Money()), intent)
    {
      if policy.Some? && policy.value.enabled {
        var p := policy.value;
        var armed := balance >= p.threshold;
        var failures := p.failures;
        if intent.reason.AutoTopUp? && intent.policyGeneration == p.generation { failures := 0; }
        policy := Some(p.(armed := armed, failures := failures, version := p.version + 1));
        if !state.Suspended? && !state.Closed? {
          state := if armed then Active else AttentionRequired;
        }
      }
    }

    /** Three failures in a row switch the policy off. */
    method SettlePolicyAfterFailure(intent: Intent)
      modifies this`policy, this`state
      ensures Money() == AfterNonSuccess(old(Money()), intent)
      ensures Lost(intent) && intent.reason.AutoTopUp? && old(policy).Some?
              && intent.policyGeneration == old(policy).value.generation ==>
                && policy.Some? && policy.value.failures == old(policy).value.failures + 1 && !policy.value.armed
                && (policy.value.failures >= 3 ==> !policy.value.enabled)
    {
      if intent.reason.AutoTopUp? && policy.Some? && policy.value.generation == intent.policyGeneration {
        var p := policy.value;
        var failed := intent.state.Failed? || intent.state.Canceled?;
        var disable := failed && p.failures + 1 >= 3;
        if failed {
          policy := Some(p.(failures := p.failures + 1, enabled := p.enabled && !disable, armed := false,
                            version := p.version + 1));
        }
        if (intent.state.RequiresAction? || disable) && state.Active? { state := AttentionRequired; }
      }
    }

    // ------------------------------------------------------------ provider reversals

    method RecordProviderReversal(req: ReversalIn) returns (error: Option<StoreError>)
      requires Valid()
      modifies this
      ensures Valid() && history == old(history) + [OnMoney(Reverse(req))]
      ensures Did(old(View()), RecordReversal(old(View()), req), View(), error)
    {
      ghost var before := View();
      error := ReversalTx(req);
      Remember(before, OnMoney(Reverse(req)), error);
    }

    method ReversalTx(req: ReversalIn) returns (error: Option<StoreError>)
      modifies this`state, this`balance, this`version, this`ledger, this`policy, this`events
      ensures Did(old(View()), RecordReversal(old(View()), req), View(), error)
    {
      hide Allocate;
      hide FindEvent;
      if !req.wellFormed || !IsSettlementReversal(req.reason) { return Some(Conflict); }
      if !CanSettle(req.currency) { return Some(InvalidCurrency); }
      if req.amount <= 0 { return Some(InvalidAmount); }
      var prior := FindEvent(events, req.provider, req.reference);
      if prior.Some? {
        if events[prior.value].request != req { return Some(IdempotencyConflict); }
        return None;
      }
      var saved := events;
      events := events + [Reversal(req, None, None)];
      error := AllocateTx(|saved|, None);
      if error.Some? { events := saved; }
    }

    /** Classification first; then a review row, an adjustment of a predecessor, or a debit of the balance. */
    method AllocateTx(k: nat, resolution: Option<Id>) returns (error: Option<StoreError>)
      requires k < |events|
      modifies this`state, this`balance, this`version, this`ledger, this`policy, this`events
      ensures Did(old(View()), Allocate(old(View()), k, resolution), View(), error)
    {
      hide ClassifyReversal;
      hide InsertEntry;
      hide Disarm;
      hide AllocatesOnly;
      var ev := events[k];
      var c := ClassifyReversal(View(), k, ev.request);
      match c {
        case Review(reason) =>
          if resolution.Some? { return Some(Conflict); }
          events := events[k := ev.(review := Some(reason))];
        case ToPredecessor(b) =>
          var evidence := if resolution.Some? then resolution.value else b.evidence;
          events := events[k := ev.(allocation := Some(Allocation(b.period, PredecessorAdjustment, evidence)))];
        case ToCurrent(b) =>
          var evidence := if resolution.Some? then resolution.value else b.evidence;
          var entry := |ledger|;
          error := InsertLedgerEntry(Debit, ev.request.amount, ev.request.reason,
                                     ReversalKey(ev.request.provider, ev.request.reference), "provider_reconciliation");
          if error.Some? { return; }
          DisarmPolicy();
          events := events[k := ev.(allocation := Some(Allocation(b.period, CurrentBalance(entry), evidence)))];
      }
      return None;
    }

    method DisarmPolicy()
      modifies this`policy, this`state
      ensures Money() == Disarm(old(Money()))
    {
      if policy.Some? && policy.value.armed {
        policy := Some(policy.value.(armed := false, version := policy.value.version + 1));
        if state.Active? { state := AttentionRequired; }
      }
    }

    // ------------------------------------------------------------ finalizing a handoff

    /** The first transaction: the decision, and nothing else, becomes durable. */
    method DecideTx(req: FinalizeIn) returns (error: Option<StoreError>)
      modifies this`handoffs
      ensures Did(old(View()), DecideCommit(old(View()), req), View(), error)
    {
      hide OpenFor;
      if !FinalizeWellFormed(req) { return Some(Conflict); }
      var found := Locate(View(), req.scope, false);
      if found.Missing? { return Some(found.error); }
      var h := found.handoff;
      if h.decision.Some? {
        if h.decision.value != req { return Some(IdempotencyConflict); }
        return None;
      }
      if !h.phase.CommitAuthorized? || req.owner != h.request.target || req.committedAt < h.request.cutoff {
        return Some(Conflict);
      }
      if !OpenFor(periods, h.request.source, h.request.ownershipVersion) { return Some(OwnershipVersionConflict); }
      if h.grant.None? { return Some(NotFound); }
      if h.grant.value.request.authorization != req.authorization { return Some(Conflict); }
      handoffs := handoffs[req.scope.operation := h.(decision := Some(req), phase := Finalizing,
                                                     version := h.version + 1)];
      return None;
    }

    /** The second transaction: the period changes hands with the balance of this moment. */
    method FinalizeTx(req: FinalizeIn) returns (error: Option<StoreError>)
      modifies this`handoffs, this`periods, this`policy
      ensures Did(old(View()), FinalizeCommit(old(View()), req), View(), error)
    {
      hide Capture;
      hide FindOpen;
      if !FinalizeWellFormed(req) { return Some(Conflict); }
      var found := Locate(View(), req.scope, false);
      if found.Missing? { return Some(found.error); }
      var h := found.handoff;
      if h.decision != Some(req) { return Some(Conflict); }
      if h.finalization.Some? {
        if h.finalization.value != req { return Some(IdempotencyConflict); }
        return None;
      }
      if !h.phase.Finalizing? || req.owner != h.request.target || req.committedAt < h.request.cutoff {
        return Some(Conflict);
      }
      if !OpenFor(periods, h.request.source, h.request.ownershipVersion) { return Some(OwnershipVersionConflict); }
      if h.grant.None? { return Some(NotFound); }
      if h.grant.value.request.authorization != req.authorization { return Some(Conflict); }
      if Capture(View()) != h.grant.value.state || balance < 0 { return Some(EvidenceStale); }
      var k := FindOpen(periods).value;
      if periods[k].from >= req.committedAt { return Some(NotFound); }
      periods := periods[k := periods[k].(until := Some(req.committedAt))];
      periods := periods + [Period(req.owner, req.ownershipVersion, req.committedAt, None, req.commit,
                                   Some((req.scope.operation, balance)))];
      handoffs := handoffs[req.scope.operation := h.(finalization := Some(req), phase := Finalized,
                                                     version := h.version + 1)];
      policy := Retire(policy);
      return None;
    }

    /** FinalizeOwnershipHandoff, which may stop between its transactions. If it returns without error the handoff
        is finalized and its target opens with exactly the balance that both participants confirmed. */
    method FinalizeOwnershipHandoff(req: FinalizeIn, crash: bool) returns (error: Option<StoreError>)
      requires Valid()
      modifies this
      ensures Valid()
      ensures history == old(history) + [OnHandoff(Decide(req))]
              || history == old(history) + [OnHandoff(Decide(req))] + [OnHandoff(Finalize(req))]
      ensures balance == old(balance) && ledger == old(ledger)
      ensures error.None? && !crash ==>
                req.scope.operation in handoffs && handoffs[req.scope.operation].phase.Finalized? && OpeningLaw(View())
    {
      hide DecideCommit;
      hide FinalizeCommit;
      hide Run;
      hide OpeningLaw;
      ghost var before := View();
      error := DecideTx(req);
      Remember(before, OnHandoff(Decide(req)), error);
      if error.Some? || crash { return; }
      before := View();
      error := FinalizeTx(req);
      Remember(before, OnHandoff(Finalize(req)), error);
      RunKeepsOpenings(origin, history);
      if error.None? {
        RunKeepsHandoffs(origin, old(history) + [OnHandoff(Decide(req))]);
        FinalizedPhase(before, req);
      }
    }

    // ------------------------------------------------------------ closing the cloud

    method CloseTx(req: CloseIn, now: Time, closedAt: Time) returns (error: Option<StoreError>)
      modifies this`closures, this`periods, this`state, this`version
      ensures Did(old(View()), Account.CloseCloud(old(View()), req, now, closedAt), View(), error)
    {
      hide ClosureReadiness;
      hide LocateClosure;
      if !req.wellFormed { return Some(Conflict); }
      var found := LocateClosure(View(), req.scope);
      if found.ClosureMissing? { return Some(found.error); }
      var c := found.closure;
      if req in c.retired { return Some(CommandRetired); }
      if c.completion.Some? {
        if c.completion.value != req { return Some(IdempotencyConflict); }
        return None;
      }
      var status := ClosureReadiness(View(), c, now);
      if status.NoClosureStatus? { return Some(status.error); }
      if !status.ready || status.receipt != Some(req.settlement) { return Some(ClosureNotReady); }
      if c.sourcePeriod < |periods| && periods[c.sourcePeriod].until.None? {
        if closedAt <= periods[c.sourcePeriod].from { return Some(ConstraintViolation); }
        periods := periods[c.sourcePeriod := periods[c.sourcePeriod].(until := Some(closedAt))];
      }
      closures := closures[req.scope.operation := c.(completion := Some(req), phase := ClosureClosed,
                                                     version := c.version + 1)];
      state := Closed;
      version := version + 1;
      return None;
    }

    /** CloseCloud: without error the account is closed at balance zero with nothing open, whatever came before. */
    method CloseCloud(req: CloseIn, now: Time, closedAt: Time) returns (error: Option<StoreError>)
      requires Valid()
      modifies this
      ensures Valid() && history == old(history) + [OnClosure(Close(req, now, closedAt))]
      ensures Did(old(View()), Account.CloseCloud(old(View()), req, now, closedAt), View(), error)
      ensures state.Closed? ==> balance == 0 && !HasOpen(intents)
    {
      ghost var before := View();
      error := CloseTx(req, now, closedAt);
      Remember(before, OnClosure(Close(req, now, closedAt)), error);
      if state.Closed? {
        ClosedStaysZero(origin, history, []);
        assert history + [] == history;
      }
    }
  }

  lemma FinalizedPhase(s: State, req: FinalizeIn)
    requires HandoffLaw(s) && FinalizeCommit(s, req).Done?
    ensures var t := FinalizeCommit(s, req).state;
            req.scope.operation in t.handoffs && t.handoffs[req.scope.operation].phase.Finalized?
  {
    hide EvidenceOk;
    hide GrantOk;
    hide FindOpen;
    hide Capture;
    assert req.scope.operation in s.handoffs && HandoffOk(s.handoffs[req.scope.operation]);
  }
}
