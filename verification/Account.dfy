/** One commercial account: every store method is one transaction under the account row lock, so it is
    one step from a snapshot of the account's rows to the next. A failed step rolls back and changes
    nothing. Rows created by the database are named by their position; SHA-256 digests of a request or of
    captured state are the request or the state itself. */
module Account {
  import opened Common
  import opened Evidence

  type Id = string
  /** Microseconds. */
  type Time = int

  datatype StoreError =
    | Conflict | NotFound | InvalidCurrency | InvalidAmount | InvalidReason | InvalidTransition | InvalidPolicy
    | ProviderReversalRequired | AccountClosed | IdempotencyConflict | HandoffFenced | BalanceOverflow
    | DuplicateKey | ConstraintViolation | PaymentMethodInactive | CapabilityUnsupported
    | OwnershipEvidenceMissing | OwnershipVersionConflict | EvidenceStale | NotParticipant | NotConfirmable
    | ClosureNotReady | CommandRetired

  datatype Outcome = Done(state: State) | Fail(error: StoreError)

  // ---------------------------------------------------------------- rows

  datatype AccountState = Active | AttentionRequired | Suspended | Closed
  datatype Direction = Credit | Debit
  datatype LedgerReason =
    | PaymentTopUpCredit | ManualAdjustmentCredit
    | InvoiceDebit | UsageAdjustmentDebit | ManualAdjustmentDebit | RefundDebit | ChargebackDebit

  /** The pair (idempotency_scope, idempotency_key); the scopes "payment_intent" and
      "provider_reversal/..." are told apart because the store itself writes under them. */
  datatype Key =
    | Named(scope: string, name: string)
    | IntentKey(intent: nat)
    | ReversalKey(provider: string, reference: string)

  datatype Entry = Entry(
    direction: Direction, amount: int, reason: LedgerReason, key: Key, source: string, balanceAfter: int)

  datatype IntentState = Created | Processing | Authorized | RequiresAction | Unknown | Succeeded | Failed | Canceled
  datatype IntentReason = ManualTopUp | AutoTopUp

  datatype Intent = Intent(
    amount: int, reason: IntentReason, provider: string, idempotencyKey: Option<string>,
    policyGeneration: int, state: IntentState, providerRef: string, createdAt: Time)

  datatype Policy = Policy(
    enabled: bool, threshold: int, topUp: int, attemptLimit: int, amountLimit: int, cooldown: int,
    generation: int, version: int, armed: bool, lastTriggered: Option<Time>, failures: int)

  datatype Funds = Funds(
    state: AccountState, balance: int, version: nat, ledger: seq<Entry>, intents: seq<Intent>, policy: Option<Policy>)

  datatype Binding = Binding(period: nat, evidence: Id)

  datatype Disposition = CurrentBalance(entry: nat) | PredecessorAdjustment
  datatype Allocation = Allocation(period: nat, disposition: Disposition, evidence: Id)
  datatype ReviewReason =
    | OriginalPaymentUnresolved | OriginalPaymentMismatch | OriginalPaymentNotSettled | ReversalExceedsCredit
    | ResponsibilityUnproven | CommercialAccountClosed | OwnershipCommitInProgress
  datatype ReversalIn = ReversalIn(
    wellFormed: bool, provider: string, reference: string, intent: nat, amount: int, currency: Currency,
    reason: LedgerReason, payload: Id)
  datatype Reversal = Reversal(request: ReversalIn, review: Option<ReviewReason>, allocation: Option<Allocation>)

  datatype Claims = Claims(bindings: map<nat, Binding>, events: seq<Reversal>)

  datatype Period = Period(
    owner: Id, version: int, from: Time, until: Option<Time>, evidence: Id, opening: Option<(Id, int)>)

  /** What captureSettlementStateTx digests, seen from one account. `Env` stands for the usage, invoice,
      job, attempt, webhook and setup rows that other writers change. */
  datatype Env = Env(unpaid: nat, debt: nat, busy: set<nat>, refunds: nat, setups: nat, rows: int)
  datatype Captured = Captured(
    balance: int, version: nat, state: AccountState, intents: seq<(IntentState, int)>, unresolved: nat, env: Env)

  datatype Phase = Preparing | Prepared | CommitAuthorized | Finalizing | Finalized | AbortPending | Aborted

  datatype Scope = Scope(operation: Id, ownershipVersion: int)
  datatype PrepareIn = PrepareIn(
    wellFormed: bool, operation: Id, source: Id, target: Id, ownershipVersion: int, cutoff: Time)
  datatype SettlementIn = SettlementIn(
    wellFormed: bool, scope: Scope, receipt: Id, state: Captured, financial: Financial)
  datatype ConfirmIn = ConfirmIn(
    wellFormed: bool, scope: Scope, user: Id, version: int, balance: int, currency: Currency)
  datatype AuthorizeIn = AuthorizeIn(wellFormed: bool, scope: Scope, authorization: Id, version: int)
  datatype FinalizeIn = FinalizeIn(
    wellFormed: bool, scope: Scope, authorization: Id, owner: Id, ownershipVersion: int, committedAt: Time, commit: Id)
  datatype AbortIn = AbortIn(wellFormed: bool, scope: Scope, cancellation: Id, decision: Id, authorization: Option<Id>)
  datatype CompleteAbortIn = CompleteAbortIn(wellFormed: bool, scope: Scope, cancellation: Id, release: Id)

  datatype Receipt = Receipt(state: Captured, evidence: Financial)
  datatype Grant = Grant(request: AuthorizeIn, state: Captured)

  /** A handoff row with the append-only rows that refer to it. `confirmed` keeps the balance each
      participant named, as the confirmation audit event does. */
  datatype Handoff = Handoff(
    request: PrepareIn, sourcePeriod: nat, phase: Phase, version: nat,
    receipts: map<nat, Receipt>, snapshots: map<nat, int>, confirmed: map<(nat, Id), int>,
    grant: Option<Grant>, decision: Option<FinalizeIn>, finalization: Option<FinalizeIn>,
    cancellation: Option<AbortIn>, release: Option<Id>)

  datatype ClosurePhase = ClosurePreparing | ClosureClosed | Canceling | ClosureCanceled
  type Subject = Id

  datatype ClosureScope = ClosureScope(operation: Id, owner: Id, ownershipVersion: int)
  datatype PrepareClosureIn = PrepareClosureIn(wellFormed: bool, scope: ClosureScope, cutoff: Time, request: Id)
  datatype ClosureCaptured = ClosureCaptured(
    financial: Captured, manifest: map<Subject, Option<Id>>, request: PrepareClosureIn)
  datatype ClosureSettlementIn = ClosureSettlementIn(
    wellFormed: bool, scope: ClosureScope, receipt: Id, state: ClosureCaptured, financial: Financial,
    cutoff: Time, observedAt: Time, coveredThrough: Time, expiresAt: Time)
  datatype ClosureReceipt = ClosureReceipt(
    id: Id, state: ClosureCaptured, evidence: Financial, observedAt: Time, coveredThrough: Time, expiresAt: Time)
  datatype CloseIn = CloseIn(wellFormed: bool, scope: ClosureScope, settlement: Id, readiness: Id)

  datatype Closure = Closure(
    request: PrepareClosureIn, sourcePeriod: nat, phase: ClosurePhase, version: nat,
    tasks: map<Subject, Option<Id>>, settlements: seq<ClosureReceipt>,
    completion: Option<CloseIn>, cancellation: Option<(Id, Id)>, release: Option<Id>, retired: set<CloseIn>)

  datatype Creation = Creation(wellFormed: bool, event: Id, owner: Id, occurredAt: Time, evidence: Id)

  datatype State = State(
    funds: Funds, claims: Claims, periods: seq<Period>,
    handoffs: map<Id, Handoff>, receiptIds: map<Id, SettlementIn>,
    closures: map<Id, Closure>, closureReceiptIds: map<Id, ClosureSettlementIn>,
    creation: Option<Creation>, env: Env)

  // ---------------------------------------------------------------- which rows a step may change

  predicate OnlyMoney(s: State, t: State) { t == s.(funds := t.funds, claims := t.claims) }

  /** Handoff steps never touch money except by retiring the top-up policy. */
  predicate OnlyHandoff(s: State, t: State) {
    && t == s.(funds := t.funds, periods := t.periods, handoffs := t.handoffs, receiptIds := t.receiptIds)
    && t.funds == s.funds.(policy := t.funds.policy)
  }

  /** Closure steps never touch the books or the intents. */
  predicate OnlyClosure(s: State, t: State) {
    && t == s.(funds := t.funds, periods := t.periods, closures := t.closures, closureReceiptIds := t.closureReceiptIds)
    && t.funds == s.funds.(policy := t.funds.policy, state := t.funds.state, version := t.funds.version)
  }

  /** Reversal events are untouched. */
  predicate Rows(s: State, t: State) { t.claims.events == s.claims.events }

  // ---------------------------------------------------------------- balance and ledger

  function ApplyBalance(current: int, direction: Direction, amount: int): (r: Option<int>) {
    if amount <= 0 then None
    else if direction.Credit? then if current > MAX_INT64 - amount then None else Some(current + amount)
    else if current < MIN_INT64 + amount then None else Some(current - amount)
  }

  predicate HasKey(ledger: seq<Entry>, key: Key) {
    exists i :: 0 <= i < |ledger| && ledger[i].key == key
  }

  function FindEntry(ledger: seq<Entry>, key: Key): (r: Option<nat>)
    ensures r.Some? ==> r.value < |ledger| && ledger[r.value].key == key
    ensures r.None? <==> !HasKey(ledger, key)
  {
    if |ledger| == 0 then None
    else if ledger[|ledger| - 1].key == key then Some(|ledger| - 1)
    else FindEntry(ledger[..|ledger| - 1], key)
  }

  datatype Insertion = Inserted(funds: Funds) | Rejected(error: StoreError)

  /** insertLedgerEntryTx: checked balance, then the row (unique per key), then the projection. */
  function InsertEntry(
    f: Funds, direction: Direction, amount: int, reason: LedgerReason, key: Key, source: string): Insertion {
    var next := ApplyBalance(f.balance, direction, amount);
    if next.None? then Rejected(BalanceOverflow)
    else if HasKey(f.ledger, key) then Rejected(DuplicateKey)
    else Inserted(f.(ledger := f.ledger + [Entry(direction, amount, reason, key, source, next.value)],
                     balance := next.value, version := f.version + 1))
  }

  predicate ValidReason(direction: Direction, reason: LedgerReason) {
    if direction.Credit? then reason.PaymentTopUpCredit? || reason.ManualAdjustmentCredit?
    else !reason.PaymentTopUpCredit? && !reason.ManualAdjustmentCredit?
  }

  predicate IsSettlementReversal(reason: LedgerReason) {
    reason.RefundDebit? || reason.ChargebackDebit?
  }

  // ---------------------------------------------------------------- fences and periods

  predicate Live(h: Handoff) { !h.phase.Finalized? && !h.phase.Aborted? }

  predicate HandoffLive(s: State) { exists id :: id in s.handoffs && Live(s.handoffs[id]) }

  predicate ClosureStands(s: State) { exists id :: id in s.closures && !s.closures[id].phase.ClosureCanceled? }

  /** requireNoHandoffTx fails. */
  predicate Fenced(s: State) { HandoffLive(s) || ClosureStands(s) }

  /** The open responsibility period. */
  function FindOpen(periods: seq<Period>): (r: Option<nat>)
    ensures r.Some? ==> r.value < |periods| && periods[r.value].until.None?
    ensures r.None? <==> forall i :: 0 <= i < |periods| ==> periods[i].until.Some?
  {
    if |periods| == 0 then None
    else if periods[|periods| - 1].until.None? then Some(|periods| - 1)
    else FindOpen(periods[..|periods| - 1])
  }

  predicate OpenFor(periods: seq<Period>, owner: Id, version: int) {
    var k := FindOpen(periods);
    k.Some? && periods[k.value].owner == owner && periods[k.value].version == version
  }

  /** The insert trigger that binds a new payment to the responsibility period open at its creation. */
  function Bind(s: State, intent: nat): Claims {
    var k := FindOpen(s.periods);
    if k.None? then s.claims
    else s.claims.(bindings := s.claims.bindings[intent := Binding(k.value, s.periods[k.value].evidence)])
  }

  // ---------------------------------------------------------------- payment intents

  predicate Terminal(st: IntentState) { st.Succeeded? || st.Failed? || st.Canceled? }

  predicate CanTransition(from: IntentState, to: IntentState) {
    from == to ||
    match from
    case Created => to.Processing? || to.Canceled?
    case Processing => to.Authorized? || to.RequiresAction? || to.Unknown? || Terminal(to)
    case Authorized => to.Unknown? || Terminal(to)
    case RequiresAction => to.Processing? || to.Authorized? || to.Unknown? || Terminal(to)
    case Unknown => to.Authorized? || Terminal(to)
    case _ => false
  }

  predicate HasOpen(intents: seq<Intent>) {
    exists i :: 0 <= i < |intents| && !Terminal(intents[i].state)
  }

  function TransitionIntent(s: State, i: nat, to: IntentState, ref: string): (r: Outcome)
    ensures r.Done? ==> OnlyMoney(s, r.state)
    ensures r.Done? ==> r.state.claims == s.claims
  {
    if i >= |s.funds.intents| then Fail(NotFound)
    else
      var intent := s.funds.intents[i];
      if intent.providerRef != "" && ref != "" && intent.providerRef != ref then Fail(Conflict)
      else if intent.state == to then Done(s)
      else if !CanTransition(intent.state, to) then Fail(InvalidTransition)
      else
        var moved := intent.(state := to, providerRef := if intent.providerRef == "" then ref else intent.providerRef);
        var f := s.funds.(intents := s.funds.intents[i := moved]);
        if to.Succeeded? then
          var ins := InsertEntry(f, Credit, intent.amount, PaymentTopUpCredit, IntentKey(i), "payment_worker");
          if ins.Rejected? then Fail(ins.error) else Done(s.(funds := AfterSuccess(ins.funds, moved)))
        else Done(s.(funds := AfterNonSuccess(f, moved)))
  }

  /** Policy and account state after a successful top-up. */
  function AfterSuccess(f: Funds, intent: Intent): Funds {
    if f.policy.None? || !f.policy.value.enabled then f
    else
      var p := f.policy.value;
      var armed := f.balance >= p.threshold;
      var reset := intent.reason.AutoTopUp? && intent.policyGeneration == p.generation;
      f.(policy := Some(p.(armed := armed, failures := if reset then 0 else p.failures, version := p.version + 1)),
         state := if f.state.Suspended? || f.state.Closed? then f.state else if armed then Active
                  else AttentionRequired)
  }

  function AfterNonSuccess(f: Funds, intent: Intent): Funds {
    if !intent.reason.AutoTopUp? || f.policy.None? || f.policy.value.generation != intent.policyGeneration then f
    else
      var p := f.policy.value;
      var failed := intent.state.Failed? || intent.state.Canceled?;
      var disable := failed && p.failures + 1 >= 3;
      var attention := intent.state.RequiresAction? || disable;
      f.(policy := Some(if failed then p.(failures := p.failures + 1, enabled := p.enabled && !disable, armed := false,
                                          version := p.version + 1)
                        else p),
         state := if attention && f.state.Active? then AttentionRequired else f.state)
  }

  datatype TopUpIn = TopUpIn(
    wellFormed: bool, hosted: bool, amount: int, currency: Currency, provider: string, key: string,
    methodActive: bool, methodCapable: bool, now: Time)

  function FindIntent(intents: seq<Intent>, key: string): (r: Option<nat>)
    ensures r.Some? ==> r.value < |intents|
  {
    if |intents| == 0 then None
    else if intents[|intents| - 1].idempotencyKey == Some(key) then Some(|intents| - 1)
    else FindIntent(intents[..|intents| - 1], key)
  }

  /** CreateManualTopUp and CreateHostedTopUp. */
  function CreateTopUp(s: State, req: TopUpIn): (r: Outcome)
    ensures r.Done? ==> OnlyMoney(s, r.state)
    ensures r.Done? ==> Rows(s, r.state) && r.state.funds == s.funds.(intents := r.state.funds.intents)
  {
    if !req.wellFormed then Fail(Conflict)
    else if !CanSettle(req.currency) then Fail(InvalidCurrency)
    else if req.amount <= 0 then Fail(InvalidAmount)
    else if s.funds.state.Closed? || s.funds.state.Suspended? then Fail(AccountClosed)
    else if Fenced(s) then Fail(HandoffFenced)
    else
      var prior := FindIntent(s.funds.intents, req.key);
      if prior.Some? then
        var was := s.funds.intents[prior.value];
        if was.amount != req.amount || was.provider != req.provider || !was.reason.ManualTopUp?
        then Fail(IdempotencyConflict)
        else Done(s)
      else if !req.hosted && !req.methodActive then Fail(PaymentMethodInactive)
      else if !req.hosted && !req.methodCapable then Fail(CapabilityUnsupported)
      else
        var intent := Intent(req.amount, ManualTopUp, req.provider, Some(req.key), 0,
                             if req.hosted then Processing else Created, "", req.now);
        Done(s.(funds := s.funds.(intents := s.funds.intents + [intent]), claims := Bind(s, |s.funds.intents|)))
  }

  /** The intent update of BeginProviderAttempt for a first charge. */
  function BeginCharge(s: State, i: nat): (r: Outcome)
    ensures r.Done? ==> OnlyMoney(s, r.state)
    ensures r.Done? ==>
              && Rows(s, r.state) && r.state.claims == s.claims
              && r.state.funds == s.funds.(intents := r.state.funds.intents)
  {
    if i >= |s.funds.intents| then Fail(NotFound)
    else if Fenced(s) then Fail(HandoffFenced)
    else if !s.funds.intents[i].state.Created? then Fail(Conflict)
    else Done(s.(funds := s.funds.(intents := s.funds.intents[i := s.funds.intents[i].(state := Processing)])))
  }

  /** What a verified webhook writes to the intent it names: the provider's reference, once. */
  function NoteReference(s: State, i: nat, ref: string): (r: Outcome)
    ensures r.Done? ==> OnlyMoney(s, r.state)
    ensures r.Done? ==> r.state.claims == s.claims && r.state.funds == s.funds.(intents := r.state.funds.intents)
  {
    if i >= |s.funds.intents| then Fail(NotFound)
    else
      var intent := s.funds.intents[i];
      if intent.providerRef != "" && ref != "" && intent.providerRef != ref then Fail(Conflict)
      else if intent.providerRef != "" || ref == "" then Done(s)
      else Done(s.(funds := s.funds.(intents := s.funds.intents[i := intent.(providerRef := ref)])))
  }

  // ---------------------------------------------------------------- automatic top-up

  const DAY: int := 86_400_000_000
  const UTC8: int := 28_800_000_000

  /** Start of the billing day (UTC+8) that holds t. */
  function DayStart(t: Time): Time { (t + UTC8) / DAY * DAY - UTC8 }

  predicate AutoSince(intent: Intent, since: Time) { intent.reason.AutoTopUp? && intent.createdAt >= since }

  predicate Lost(intent: Intent) { intent.state.Failed? || intent.state.Canceled? }

  function AutoCount(intents: seq<Intent>, since: Time): nat {
    if |intents| == 0 then 0
    else AutoCount(intents[..|intents| - 1], since) + if AutoSince(intents[|intents| - 1], since) then 1 else 0
  }

  function AutoAmount(intents: seq<Intent>, since: Time): int {
    if |intents| == 0 then 0
    else
      var last := intents[|intents| - 1];
      AutoAmount(intents[..|intents| - 1], since) + if AutoSince(last, since) && !Lost(last) then last.amount else 0
  }

  predicate ValidPolicy(p: Policy) {
    && p.threshold > 0 && p.topUp > 0 && 0 < p.attemptLimit <= 10 && p.amountLimit > 0 && p.cooldown >= 300
    && p.generation > 0 && p.version > 0 && p.failures >= 0 && p.topUp <= p.amountLimit
  }

  datatype Decision =
    | Trigger | Disabled | NotArmed | ThresholdNotCrossed | OpenIntent | MethodInactive | MethodIncapable
    | Cooldown | DailyAttemptLimit | DailyAmountLimit

  function EvaluateAutoTopUp(p: Policy, balance: int, now: Time, attempts: int, amount: int, hasOpen: bool,
                             active: bool, capable: bool): Decision {
    if !p.enabled then Disabled
    else if !p.armed then NotArmed
    else if balance >= p.threshold then ThresholdNotCrossed
    else if hasOpen then OpenIntent
    else if !active then MethodInactive
    else if !capable then MethodIncapable
    else if p.lastTriggered.Some? && now < p.lastTriggered.value + p.cooldown * 1_000_000 then Cooldown
    else if attempts >= p.attemptLimit then DailyAttemptLimit
    else if amount > p.amountLimit - p.topUp then DailyAmountLimit
    else Trigger
  }

  /** The payment method of the policy, as the evaluation reads it. */
  datatype Method = Method(provider: string, active: bool, capable: bool)

  /** evaluateAutoTopUpTx, run after a debit was inserted. */
  function RunAutoTopUp(s: State, now: Time, via: Method): (r: Outcome)
    ensures r.Done? ==> OnlyMoney(s, r.state)
    ensures r.Done? ==> r.state.funds == s.funds.(intents := r.state.funds.intents, policy := r.state.funds.policy)
    ensures r.Done? ==> Rows(s, r.state)
  {
    if Fenced(s) || s.funds.policy.None? then Done(s)
    else
      var p := s.funds.policy.value;
      if !ValidPolicy(p) then Fail(InvalidPolicy)
      else
        var intents := s.funds.intents;
        var since := DayStart(now);
        var decision := EvaluateAutoTopUp(p, s.funds.balance, now, AutoCount(intents, since),
                                          AutoAmount(intents, since),
                                          HasOpen(intents), via.active, via.capable);
        if !decision.Trigger? then Done(s)
        else
          var intent := Intent(p.topUp, AutoTopUp, via.provider, None, p.generation, Created, "", now);
          Done(s.(funds := s.funds.(intents := intents + [intent],
                                    policy := Some(p.(armed := false, lastTriggered := Some(now),
                                                      version := p.version + 1))),
                  claims := Bind(s, |intents|)))
  }

  function Rearm(s: State): State {
    if Fenced(s) || s.funds.policy.None? then s
    else
      var p := s.funds.policy.value;
      if p.enabled && s.funds.balance >= p.threshold then
        s.(funds := s.funds.(policy := Some(p.(armed := true, version := if p.armed then p.version else p.version + 1)),
                             state := if s.funds.state.AttentionRequired? then Active else s.funds.state))
      else s
  }

  datatype PostIn = PostIn(
    wellFormed: bool, direction: Direction, amount: int, currency: Currency, reason: LedgerReason, key: Key,
    source: string, now: Time, via: Method)

  function PostLedgerEntry(s: State, req: PostIn): (r: Outcome)
    ensures r.Done? ==> OnlyMoney(s, r.state)
  {
    if !req.wellFormed then Fail(Conflict)
    else if !CanSettle(req.currency) then Fail(InvalidCurrency)
    else if req.amount <= 0 then Fail(InvalidAmount)
    else if !ValidReason(req.direction, req.reason) then Fail(InvalidReason)
    else if IsSettlementReversal(req.reason) then Fail(ProviderReversalRequired)
    else if s.funds.state.Closed? then Fail(AccountClosed)
    else
      var prior := FindEntry(s.funds.ledger, req.key);
      if prior.Some? then
        var e := s.funds.ledger[prior.value];
        if e.direction == req.direction && e.amount == req.amount && e.reason == req.reason && e.source == req.source
        then Done(s) else Fail(IdempotencyConflict)
      else if req.direction.Credit? && Fenced(s) then Fail(HandoffFenced)
      else
        var ins := InsertEntry(s.funds, req.direction, req.amount, req.reason, req.key, req.source);
        if ins.Rejected? then Fail(ins.error)
        else
          var posted := s.(funds := ins.funds);
          if req.direction.Credit? then Done(Rearm(posted))
          else if posted.funds.state.Active? then RunAutoTopUp(posted, req.now, req.via)
          else Done(posted)
  }

  /** PutAutoTopUpPolicy; consent and method checks are the caller-observed flags. */
  function PutPolicy(
    s: State, p: Policy, expected: int, methodActive: bool, methodCapable: bool, consented: bool): (r: Outcome)
    ensures r.Done? ==> OnlyMoney(s, r.state)
    ensures r.Done? ==> r.state == s.(funds := s.funds.(policy := r.state.funds.policy))
  {
    if s.funds.state.Closed? then Fail(AccountClosed)
    else if Fenced(s) then Fail(HandoffFenced)
    else if !methodActive then Fail(PaymentMethodInactive)
    else if !methodCapable then Fail(CapabilityUnsupported)
    else if !consented then Fail(Conflict)
    else
      var was := s.funds.policy;
      if was.Some? && expected > 0 && was.value.version != expected then Fail(Conflict)
      else if was.None? && expected > 0 then Fail(Conflict)
      else
        var next := p.(generation := if was.Some? then was.value.generation + 1 else 1,
                       version := if was.Some? then was.value.version + 1 else 1,
                       armed := true, failures := 0, lastTriggered := None);
        if !ValidPolicy(next) then Fail(InvalidPolicy) else Done(s.(funds := s.funds.(policy := Some(next))))
  }

  /** DisableAutoTopUpPolicy and the policy effect of RevokePaymentMethod. */
  function DisablePolicy(s: State): (r: Outcome)
    ensures r.Done? ==> OnlyMoney(s, r.state)
    ensures r.Done? ==> r.state == s.(funds := s.funds.(policy := r.state.funds.policy))
  {
    if s.funds.policy.None? then Fail(NotFound)
    else if !s.funds.policy.value.enabled then Done(s)
    else
      var p := s.funds.policy.value;
      Done(s.(funds := s.funds.(policy := Some(p.(enabled := false, armed := false, generation := p.generation + 1,
                                                   version := p.version + 1)))))
  }

  // ---------------------------------------------------------------- provider reversals

  function FindEvent(events: seq<Reversal>, provider: string, reference: string): (r: Option<nat>)
    ensures r.Some? ==> r.value < |events|
  {
    if |events| == 0 then None
    else
      var last := events[|events| - 1].request;
      if last.provider == provider && last.reference == reference then Some(|events| - 1)
      else FindEvent(events[..|events| - 1], provider, reference)
  }

  /** Amounts already allocated against an intent, leaving out event `except`. */
  function AllocatedTo(events: seq<Reversal>, intent: nat, except: int): int {
    if |events| == 0 then 0
    else
      var n := |events| - 1;
      AllocatedTo(events[..n], intent, except)
      + if events[n].allocation.Some? && events[n].request.intent == intent && n != except
        then events[n].request.amount else 0
  }

  datatype Classification = Review(reason: ReviewReason) | ToPredecessor(binding: Binding) | ToCurrent(binding: Binding)

  predicate Committing(h: Handoff) {
    h.phase.CommitAuthorized? || h.phase.Finalizing? || (h.phase.AbortPending? && h.grant.Some?)
  }

  predicate CommitPending(s: State) { exists id :: id in s.handoffs && Committing(s.handoffs[id]) }

  /** A committed decision names this period as its source. */
  predicate DecisionFrom(s: State, period: nat) {
    exists id :: id in s.handoffs && s.handoffs[id].sourcePeriod == period && s.handoffs[id].decision.Some?
  }

  function ClassifyReversal(s: State, event: int, req: ReversalIn): Classification {
    if req.intent >= |s.funds.intents| then Review(OriginalPaymentUnresolved)
    else
      var intent := s.funds.intents[req.intent];
      if intent.provider != req.provider then Review(OriginalPaymentMismatch)
      else
        var k := FindEntry(s.funds.ledger, IntentKey(req.intent));
        if k.None? then Review(OriginalPaymentNotSettled)
        else
          var credit := s.funds.ledger[k.value];
          if !intent.state.Succeeded? || credit.amount != intent.amount || !credit.direction.Credit?
             || !credit.reason.PaymentTopUpCredit? || credit.source != "payment_worker"
          then Review(OriginalPaymentNotSettled)
          else
            var total := AllocatedTo(s.claims.events, req.intent, event);
            if total > intent.amount || req.amount > intent.amount - total then Review(ReversalExceedsCredit)
            else if req.intent !in s.claims.bindings || s.claims.bindings[req.intent].period >= |s.periods|
            then Review(ResponsibilityUnproven)
            else
              var b := s.claims.bindings[req.intent];
              if s.periods[b.period].until.Some? || DecisionFrom(s, b.period) then ToPredecessor(b)
              else if s.funds.state.Closed? then Review(CommercialAccountClosed)
              else if CommitPending(s) then Review(OwnershipCommitInProgress)
              else ToCurrent(b)
  }

  /** disarmAutoTopUpAfterSettlementReversalTx */
  function Disarm(f: Funds): Funds {
    if f.policy.None? || !f.policy.value.armed then f
    else
      var p := f.policy.value;
      f.(policy := Some(p.(armed := false, version := p.version + 1)),
         state := if f.state.Active? then AttentionRequired else f.state)
  }

  /** Only event k changes, it keeps its request, and funds move only for a current-balance allocation. */
  predicate AllocatesOnly(s: State, t: State, k: nat) {
    && k < |s.claims.events| == |t.claims.events|
    && t.claims == s.claims.(events := s.claims.events[k := t.claims.events[k]])
    && t.claims.events[k].request == s.claims.events[k].request
    && (t.funds != s.funds ==>
        && t.claims.events[k].allocation.Some?
        && t.claims.events[k].allocation.value.disposition == CurrentBalance(|s.funds.ledger|)
        && |t.funds.ledger| == |s.funds.ledger| + 1 && s.funds.ledger <= t.funds.ledger
        && t.funds.intents == s.funds.intents
        && t.funds.balance == s.funds.balance - s.claims.events[k].request.amount)
    && (t.funds == s.funds && t.claims.events[k].allocation != s.claims.events[k].allocation ==>
          t.claims.events[k].allocation.Some? && t.claims.events[k].allocation.value.disposition.PredecessorAdjustment?)
  }

  /** allocateProviderReversalTx for the event at position k, already present in the events table. */
  function Allocate(s: State, k: nat, resolution: Option<Id>): (r: Outcome)
    requires k < |s.claims.events|
    ensures r.Done? ==> OnlyMoney(s, r.state) && AllocatesOnly(s, r.state, k)
  {
    var ev := s.claims.events[k];
    var c := ClassifyReversal(s, k, ev.request);
    match c
    case Review(reason) =>
      if resolution.Some? then Fail(Conflict)
      else Done(s.(claims := s.claims.(events := s.claims.events[k := ev.(review := Some(reason))])))
    case ToPredecessor(b) =>
      var a := Allocation(b.period, PredecessorAdjustment, if resolution.Some? then resolution.value else b.evidence);
      Done(s.(claims := s.claims.(events := s.claims.events[k := ev.(allocation := Some(a))])))
    case ToCurrent(b) =>
      var ins := InsertEntry(s.funds, Debit, ev.request.amount, ev.request.reason,
                             ReversalKey(ev.request.provider, ev.request.reference), "provider_reconciliation");
      if ins.Rejected? then Fail(ins.error)
      else
        var evidence := if resolution.Some? then resolution.value else b.evidence;
        var a := Allocation(b.period, CurrentBalance(|s.funds.ledger|), evidence);
        Done(s.(funds := Disarm(ins.funds),
                claims := s.claims.(events := s.claims.events[k := ev.(allocation := Some(a))])))
  }

  function RecordReversal(s: State, req: ReversalIn): (r: Outcome)
    ensures r.Done? ==> OnlyMoney(s, r.state)
  {
    if !req.wellFormed || !IsSettlementReversal(req.reason) then Fail(Conflict)
    else if !CanSettle(req.currency) then Fail(InvalidCurrency)
    else if req.amount <= 0 then Fail(InvalidAmount)
    else
      var prior := FindEvent(s.claims.events, req.provider, req.reference);
      if prior.Some? then
        if s.claims.events[prior.value].request != req then Fail(IdempotencyConflict) else Done(s)
      else
        var events := s.claims.events + [Reversal(req, None, None)];
        Allocate(s.(claims := s.claims.(events := events)), |s.claims.events|, None)
  }

  function ResolveReversal(s: State, k: nat, evidence: Id, wellFormed: bool): (r: Outcome)
    ensures r.Done? ==> OnlyMoney(s, r.state)
  {
    if !wellFormed then Fail(Conflict)
    else if k >= |s.claims.events| || s.claims.events[k].review.None? then Fail(NotFound)
    else if s.claims.events[k].allocation.Some? then
      if s.claims.events[k].allocation.value.evidence != evidence then Fail(IdempotencyConflict) else Done(s)
    else Allocate(s, k, Some(evidence))
  }

  function BindHistorical(s: State, intent: nat, period: nat, evidence: Id, wellFormed: bool): (r: Outcome)
    ensures r.Done? ==> OnlyMoney(s, r.state)
    ensures r.Done? ==> r.state == s.(claims := s.claims.(bindings := r.state.claims.bindings))
  {
    if !wellFormed then Fail(Conflict)
    else if intent in s.claims.bindings then
      if s.claims.bindings[intent] != Binding(period, evidence) then Fail(IdempotencyConflict) else Done(s)
    else if intent >= |s.funds.intents| || period >= |s.periods| then Fail(NotFound)
    else Done(s.(claims := s.claims.(bindings := s.claims.bindings[intent := Binding(period, evidence)])))
  }

  function Unresolved(events: seq<Reversal>): nat {
    if |events| == 0 then 0
    else
      var last := events[|events| - 1];
      Unresolved(events[..|events| - 1]) + if last.review.Some? && last.allocation.None? then 1 else 0
  }

  // ---------------------------------------------------------------- responsibility and captured state

  /** BootstrapBrandCloud on an account that already exists: only replays can succeed. */
  function ReplayCreation(s: State, req: Creation): (r: Outcome)
    ensures r.Done? ==> OnlyHandoff(s, r.state)
    ensures r.Done? ==> r.state == s
  {
    if !req.wellFormed then Fail(Conflict)
    else if s.creation.None? then Fail(OwnershipEvidenceMissing)
    else if s.creation.value != req then Fail(IdempotencyConflict)
    else Done(s)
  }

  datatype InitializeIn = InitializeIn(wellFormed: bool, owner: Id, ownershipVersion: int, from: Time, evidence: Id)

  function InitializeResponsibility(s: State, req: InitializeIn): (r: Outcome)
    ensures r.Done? ==> OnlyHandoff(s, r.state)
    ensures r.Done? ==> r.state == s.(periods := r.state.periods)
  {
    if !req.wellFormed || req.ownershipVersion < 1 then Fail(Conflict)
    else if s.funds.state.Closed? then Fail(AccountClosed)
    else if |s.periods| > 0 then
      var first := s.periods[0];
      if first.owner != req.owner || first.version != req.ownershipVersion || first.from != req.from
         || first.evidence != req.evidence
      then Fail(IdempotencyConflict) else Done(s)
    else Done(s.(periods := [Period(req.owner, req.ownershipVersion, req.from, None, req.evidence, None)]))
  }

  function IntentRows(intents: seq<Intent>): seq<(IntentState, int)> {
    seq(|intents|, i requires 0 <= i < |intents| => (intents[i].state, intents[i].amount))
  }

  function Capture(s: State): Captured {
    Captured(s.funds.balance, s.funds.version, s.funds.state, IntentRows(s.funds.intents), Unresolved(s.claims.events),
             s.env)
  }

  function PendingRows(rows: seq<(IntentState, int)>, busy: set<nat>): nat {
    if |rows| == 0 then 0
    else
      var n := |rows| - 1;
      PendingRows(rows[..n], busy) + if !Terminal(rows[n].0) || n in busy then 1 else 0
  }

  /** The local evidence is a function of the digested state. */
  function Local(c: Captured): Financial {
    Financial(true, TWD, c.balance, false, false, false, c.env.unpaid, c.env.debt, PendingRows(c.intents, c.env.busy),
              c.env.refunds, 0, c.env.setups, c.unresolved)
  }

  // ---------------------------------------------------------------- ownership handoff

  function PrepareHandoff(s: State, req: PrepareIn): (r: Outcome)
    ensures r.Done? ==> OnlyHandoff(s, r.state)
    ensures r.Done? ==> r.state.periods == s.periods && r.state.funds == s.funds
  {
    if !req.wellFormed || req.source == req.target || req.ownershipVersion < 1 then Fail(Conflict)
    else if req.operation in s.handoffs then
      if s.handoffs[req.operation].request != req then Fail(IdempotencyConflict) else Done(s)
    else if s.funds.state.Closed? then Fail(AccountClosed)
    else if Fenced(s) then Fail(HandoffFenced)
    else
      var k := FindOpen(s.periods);
      if k.None? then Fail(OwnershipEvidenceMissing)
      else
        var p := s.periods[k.value];
        if p.owner != req.source || p.version != req.ownershipVersion || req.cutoff < p.from
        then Fail(OwnershipVersionConflict)
        else
          var h := Handoff(req, k.value, Preparing, 1, map[], map[], map[], None, None, None, None, None);
          Done(s.(handoffs := s.handoffs[req.operation := h]))
  }

  datatype Lookup = Found(handoff: Handoff) | Missing(error: StoreError)

  /** lockHandoffOperationTx, with the source-responsibility check of loadHandoffScopeTx if asked. */
  function Locate(s: State, scope: Scope, needSource: bool): (r: Lookup)
    ensures r.Found? ==> scope.operation in s.handoffs && r.handoff == s.handoffs[scope.operation]
    ensures r.Found? ==> r.handoff.request.ownershipVersion == scope.ownershipVersion
    ensures r.Found? && needSource ==> OpenFor(s.periods, r.handoff.request.source, r.handoff.request.ownershipVersion)
  {
    if scope.operation !in s.handoffs then Missing(NotFound)
    else
      var h := s.handoffs[scope.operation];
      if h.request.ownershipVersion != scope.ownershipVersion then Missing(OwnershipVersionConflict)
      else if needSource && !OpenFor(s.periods, h.request.source, h.request.ownershipVersion)
      then Missing(OwnershipVersionConflict)
      else Found(h)
  }

  function SetHandoff(s: State, id: Id, h: Handoff): State { s.(handoffs := s.handoffs[id := h]) }

  datatype Snapshot = Snapshot(version: nat, balance: int, sourceConfirmed: bool, targetConfirmed: bool)
  datatype Status = Status(blockers: seq<Blocker>, snapshot: Option<Snapshot>) | NoStatus(error: StoreError)

  /** handoffSettlementStatusTx: validity is derived from live state, not from a stored flag. */
  function SettlementStatus(s: State, h: Handoff): Status {
    if !h.phase.Preparing? && !h.phase.Prepared? then Status([HandoffNotConfirmable], None)
    else
      var now := Capture(s);
      var known := h.version in h.receipts;
      var evidence := if known then h.receipts[h.version].evidence else NO_EVIDENCE;
      var b := Add([], !known, SettlementEvidenceMissing);
      var b := Add(b, known && h.receipts[h.version].state != now, SettlementEvidenceStale);
      var b := b + TransferBlockers(Merge(evidence, Local(now)));
      var b := Add(b, s.funds.state.Closed?, AccountIsClosed);
      if b != [] then Status(b, None)
      else if h.version !in h.snapshots then NoStatus(NotFound)
      else
        var v := h.version;
        Status([], Some(Snapshot(v, h.snapshots[v], (v, h.request.source) in h.confirmed,
                                 (v, h.request.target) in h.confirmed)))
  }

  function RecordSettlement(s: State, req: SettlementIn): (r: Outcome)
    ensures r.Done? ==> OnlyHandoff(s, r.state)
    ensures r.Done? ==> r.state.periods == s.periods && r.state.funds == s.funds
  {
    if !req.wellFormed || HasNegative(req.financial) then Fail(Conflict)
    else
      var found := Locate(s, req.scope, true);
      if found.Missing? then Fail(found.error)
      else if req.receipt in s.receiptIds then
        if s.receiptIds[req.receipt] != req then Fail(IdempotencyConflict)
        else if SettlementStatus(s, found.handoff).NoStatus? then Fail(NotFound) else Done(s)
      else
        var h := found.handoff;
        if !h.phase.Preparing? && !h.phase.Prepared? then Fail(Conflict)
        else
          var now := Capture(s);
          if now != req.state then Fail(EvidenceStale)
          else if !req.financial.balanceKnown || req.financial.balance != now.balance || req.financial.currency != TWD
          then Fail(EvidenceStale)
          else
            var h' := Settle(h, now, req.financial);
            var s' := SetHandoff(s, req.scope.operation, h').(receiptIds := s.receiptIds[req.receipt := req]);
            if SettlementStatus(s', h').NoStatus? then Fail(NotFound) else Done(s')
  }

  /** The handoff row, receipt and snapshot written by one accepted settlement. */
  function Settle(h: Handoff, now: Captured, financial: Financial): Handoff {
    var evidence := Merge(financial, Local(now));
    var clean := TransferBlockers(evidence) == [] && !now.state.Closed?;
    var v := h.version + 1;
    h.(version := v, phase := if clean then Prepared else Preparing,
       receipts := h.receipts[v := Receipt(now, evidence)],
       snapshots := if clean then h.snapshots[v := evidence.balance] else h.snapshots)
  }

  function ConfirmSnapshot(s: State, req: ConfirmIn): (r: Outcome)
    ensures r.Done? ==> OnlyHandoff(s, r.state)
    ensures r.Done? ==> r.state.periods == s.periods && r.state.funds == s.funds
  {
    if !req.wellFormed || req.version < 2 || req.balance < 0 || !CanSettle(req.currency) then Fail(Conflict)
    else
      var found := Locate(s, req.scope, true);
      if found.Missing? then Fail(found.error)
      else
        var h := found.handoff;
        if req.user != h.request.source && req.user != h.request.target then Fail(NotParticipant)
        else
          var st := SettlementStatus(s, h);
          if st.NoStatus? then Fail(st.error)
          else if st.snapshot.None? || st.snapshot.value.version != req.version
            || st.snapshot.value.balance != req.balance
          then Fail(NotConfirmable)
          else if (h.version, req.user) in h.confirmed then Done(s)
          else Done(SetHandoff(s, req.scope.operation,
                               h.(confirmed := h.confirmed[(h.version, req.user) := req.balance])))
  }

  function AuthorizeCommit(s: State, req: AuthorizeIn): (r: Outcome)
    ensures r.Done? ==> OnlyHandoff(s, r.state)
    ensures r.Done? ==> r.state.periods == s.periods && r.state.funds == s.funds
  {
    if !req.wellFormed || req.version < 2 then Fail(Conflict)
    else
      var found := Locate(s, req.scope, true);
      if found.Missing? then Fail(found.error)
      else
        var h := found.handoff;
        if h.grant.Some? then
          if h.grant.value.request != req then Fail(IdempotencyConflict)
          else if !h.phase.CommitAuthorized? then Fail(Conflict)
          else if Capture(s) != h.grant.value.state then Fail(EvidenceStale)
          else Done(s)
        else
          var st := SettlementStatus(s, h);
          if st.NoStatus? then Fail(st.error)
          else if st.snapshot.None? || st.snapshot.value.version != req.version
                  || !st.snapshot.value.sourceConfirmed || !st.snapshot.value.targetConfirmed then Fail(NotConfirmable)
          else if req.version !in h.receipts then Fail(NotFound)
          else Done(SetHandoff(s, req.scope.operation,
                               h.(phase := CommitAuthorized, version := h.version + 1,
                                  grant := Some(Grant(req, h.receipts[req.version].state)))))
  }

  predicate FinalizeWellFormed(req: FinalizeIn) {
    req.wellFormed && req.scope.ownershipVersion != MAX_INT64 && req.ownershipVersion == req.scope.ownershipVersion + 1
  }

  /** recordCommittedHandoffDecision, the first of the two finalize transactions. */
  function DecideCommit(s: State, req: FinalizeIn): (r: Outcome)
    ensures r.Done? ==> OnlyHandoff(s, r.state)
    ensures r.Done? ==> r.state.periods == s.periods && r.state.funds == s.funds
  {
    if !FinalizeWellFormed(req) then Fail(Conflict)
    else
      var found := Locate(s, req.scope, false);
      if found.Missing? then Fail(found.error)
      else
        var h := found.handoff;
        if h.decision.Some? then
          if h.decision.value != req then Fail(IdempotencyConflict) else Done(s)
        else if !h.phase.CommitAuthorized? || req.owner != h.request.target || req.committedAt < h.request.cutoff
        then Fail(Conflict)
        else if !OpenFor(s.periods, h.request.source, h.request.ownershipVersion) then Fail(OwnershipVersionConflict)
        else if h.grant.None? then Fail(NotFound)
        else if h.grant.value.request.authorization != req.authorization then Fail(Conflict)
        else Done(SetHandoff(s, req.scope.operation,
                             h.(decision := Some(req), phase := Finalizing, version := h.version + 1)))
  }

  /** The second finalize transaction. A worker reaches it only after its DecideCommit returned without
      error, so the stored decision is this very request. Other transactions may run in between, and a
      crash in between leaves the first transaction's effects alone. */
  function FinalizeCommit(s: State, req: FinalizeIn): (r: Outcome)
    ensures r.Done? ==> OnlyHandoff(s, r.state)
  {
    if !FinalizeWellFormed(req) then Fail(Conflict)
    else
      var found := Locate(s, req.scope, false);
      if found.Missing? then Fail(found.error)
      else
        var h := found.handoff;
        if h.decision != Some(req) then Fail(Conflict)
        else if h.finalization.Some? then
          if h.finalization.value != req then Fail(IdempotencyConflict) else Done(s)
        else if !h.phase.Finalizing? || req.owner != h.request.target || req.committedAt < h.request.cutoff
        then Fail(Conflict)
        else if !OpenFor(s.periods, h.request.source, h.request.ownershipVersion) then Fail(OwnershipVersionConflict)
        else if h.grant.None? then Fail(NotFound)
        else if h.grant.value.request.authorization != req.authorization then Fail(Conflict)
        else if Capture(s) != h.grant.value.state || s.funds.balance < 0 then Fail(EvidenceStale)
        else
          var k := FindOpen(s.periods).value;
          if s.periods[k].from >= req.committedAt then Fail(NotFound)
          else
            var closed := s.periods[k := s.periods[k].(until := Some(req.committedAt))];
            var successor := Period(req.owner, req.ownershipVersion, req.committedAt, None, req.commit,
                                 Some((req.scope.operation, s.funds.balance)));
            var s' := SetHandoff(s, req.scope.operation,
                                 h.(finalization := Some(req), phase := Finalized, version := h.version + 1));
            Done(s'.(periods := closed + [successor], funds := s.funds.(policy := Retire(s.funds.policy))))
  }

  /** Ownership change switches the predecessor's automatic top-up off. */
  function Retire(p: Option<Policy>): Option<Policy> {
    if p.None? then None
    else Some(p.value.(enabled := false, armed := false, version := p.value.version + 1,
                       generation := p.value.generation + 1))
  }

  function BeginAbort(s: State, req: AbortIn): (r: Outcome)
    ensures r.Done? ==> OnlyHandoff(s, r.state)
    ensures r.Done? ==> r.state.periods == s.periods && r.state.funds == s.funds
  {
    if !req.wellFormed then Fail(Conflict)
    else
      var found := Locate(s, req.scope, false);
      if found.Missing? then Fail(found.error)
      else
        var h := found.handoff;
        if h.cancellation.Some? then
          if h.cancellation.value != req then Fail(IdempotencyConflict) else Done(s)
        else if !h.phase.Preparing? && !h.phase.Prepared? && !h.phase.CommitAuthorized? then Fail(Conflict)
        else if !OpenFor(s.periods, h.request.source, h.request.ownershipVersion) then Fail(OwnershipVersionConflict)
        else if h.grant.Some? && req.authorization != Some(h.grant.value.request.authorization) then Fail(Conflict)
        else Done(SetHandoff(s, req.scope.operation,
                             h.(cancellation := Some(req), phase := AbortPending, version := h.version + 1)))
  }

  function CompleteAbort(s: State, req: CompleteAbortIn): (r: Outcome)
    ensures r.Done? ==> OnlyHandoff(s, r.state)
    ensures r.Done? ==> r.state.periods == s.periods && r.state.funds == s.funds
  {
    if !req.wellFormed then Fail(Conflict)
    else
      var found := Locate(s, req.scope, false);
      if found.Missing? then Fail(found.error)
      else
        var h := found.handoff;
        if h.cancellation.None? then Fail(NotFound)
        else if h.cancellation.value.cancellation != req.cancellation then Fail(IdempotencyConflict)
        else if h.release.Some? then
          if h.release.value != req.release then Fail(IdempotencyConflict) else Done(s)
        else if !h.phase.AbortPending? then Fail(Conflict)
        else if !OpenFor(s.periods, h.request.source, h.request.ownershipVersion) then Fail(OwnershipVersionConflict)
        else Done(SetHandoff(s, req.scope.operation,
                             h.(release := Some(req.release), phase := Aborted, version := h.version + 1)))
  }

  // ---------------------------------------------------------------- cloud closure

  function PrepareClosure(s: State, req: PrepareClosureIn, subjects: set<Subject>, now: Time): (r: Outcome)
    ensures r.Done? ==> OnlyClosure(s, r.state)
    ensures r.Done? ==> r.state.periods == s.periods && r.state.funds == s.funds.(policy := r.state.funds.policy)
  {
    if !req.wellFormed then Fail(Conflict)
    else if req.scope.operation in s.closures then
      if s.closures[req.scope.operation].request != req then Fail(IdempotencyConflict) else Done(s)
    else if Fenced(s) then Fail(HandoffFenced)
    else if !s.funds.state.Active? then Fail(Conflict)
    else if !OpenFor(s.periods, req.scope.owner, req.scope.ownershipVersion) then Fail(OwnershipVersionConflict)
    else
      var k := FindOpen(s.periods).value;
      if s.periods[k].from > req.cutoff || req.cutoff > now then Fail(OwnershipVersionConflict)
      else
        var c := Closure(req, k, ClosurePreparing, 1, map x | x in subjects :: None, [], None, None, None, {});
        var p := s.funds.policy;
        var off := if p.Some? && (p.value.enabled || p.value.armed)
                   then Some(p.value.(enabled := false, armed := false, version := p.value.version + 1)) else p;
        Done(s.(closures := s.closures[req.scope.operation := c], funds := s.funds.(policy := off)))
  }

  datatype ClosureLookup = ClosureFound(closure: Closure) | ClosureMissing(error: StoreError)

  function LocateClosure(s: State, scope: ClosureScope): (r: ClosureLookup)
    ensures r.ClosureFound? ==> scope.operation in s.closures && r.closure == s.closures[scope.operation]
  {
    if scope.operation !in s.closures then ClosureMissing(NotFound)
    else
      var c := s.closures[scope.operation];
      if c.request.scope.owner != scope.owner || c.request.scope.ownershipVersion != scope.ownershipVersion
      then ClosureMissing(OwnershipVersionConflict)
      else ClosureFound(c)
  }

  predicate ClosureOwner(s: State, c: Closure) {
    && c.sourcePeriod < |s.periods| && s.periods[c.sourcePeriod].until.None?
    && s.periods[c.sourcePeriod].owner == c.request.scope.owner
    && s.periods[c.sourcePeriod].version == c.request.scope.ownershipVersion
  }

  function SetClosure(s: State, id: Id, c: Closure): State { s.(closures := s.closures[id := c]) }

  function RecordRevocation(
    s: State, scope: ClosureScope, subject: Subject, receipt: Id, wellFormed: bool): (r: Outcome)
    ensures r.Done? ==> OnlyClosure(s, r.state)
    ensures r.Done? ==> r.state.periods == s.periods && r.state.funds == s.funds.(policy := r.state.funds.policy)
  {
    if !wellFormed then Fail(Conflict)
    else
      var found := LocateClosure(s, scope);
      if found.ClosureMissing? then Fail(found.error)
      else
        var c := found.closure;
        if subject in c.tasks && c.tasks[subject].Some? then
          if c.tasks[subject].value != receipt then Fail(IdempotencyConflict) else Done(s)
        else if !c.phase.ClosurePreparing? && !c.phase.Canceling? then Fail(Conflict)
        else if subject !in c.tasks then Fail(NotFound)
        else Done(SetClosure(s, scope.operation, c.(tasks := c.tasks[subject := Some(receipt)])))
  }

  function CaptureClosure(s: State, c: Closure): ClosureCaptured {
    ClosureCaptured(Capture(s), c.tasks, c.request)
  }

  function RecordClosureSettlement(s: State, req: ClosureSettlementIn, now: Time): (r: Outcome)
    ensures r.Done? ==> OnlyClosure(s, r.state)
    ensures r.Done? ==> r.state.periods == s.periods && r.state.funds == s.funds.(policy := r.state.funds.policy)
  {
    if !req.wellFormed || req.coveredThrough < req.cutoff || req.coveredThrough > req.observedAt
       || req.expiresAt <= req.observedAt || req.expiresAt > req.observedAt + 300_000_000 || HasNegative(req.financial)
    then Fail(Conflict)
    else
      var found := LocateClosure(s, req.scope);
      if found.ClosureMissing? then Fail(found.error)
      else if req.receipt in s.closureReceiptIds then
        if s.closureReceiptIds[req.receipt] != req then Fail(IdempotencyConflict) else Done(s)
      else
        var c := found.closure;
        if !c.phase.ClosurePreparing? || c.request.cutoff != req.cutoff then Fail(Conflict)
        else if !ClosureOwner(s, c) then Fail(OwnershipVersionConflict)
        else
          var current := CaptureClosure(s, c);
          var f := req.financial;
          if current != req.state || req.observedAt > now || req.expiresAt <= now || !f.balanceKnown
             || f.currency != TWD
             || f.balance != current.financial.balance then Fail(EvidenceStale)
          else
            var r := ClosureReceipt(req.receipt, current, Merge(f, Local(current.financial)),
                                    req.observedAt, req.coveredThrough, req.expiresAt);
            Done(SetClosure(s, req.scope.operation, c.(settlements := c.settlements + [r]))
                 .(closureReceiptIds := s.closureReceiptIds[req.receipt := req]))
  }

  /** The settlement with the latest observation; among equals the one recorded last. */
  function Latest(rs: seq<ClosureReceipt>): (r: Option<ClosureReceipt>)
    ensures r.None? <==> rs == []
    ensures r.Some? ==> r.value in rs && forall x :: x in rs ==> x.observedAt <= r.value.observedAt
  {
    if |rs| == 0 then None
    else
      var last := rs[|rs| - 1];
      var best := Latest(rs[..|rs| - 1]);
      if best.Some? && best.value.observedAt > last.observedAt then best else Some(last)
  }

  datatype ClosureStatus =
    | ClosureStatus(blockers: seq<Blocker>, ready: bool, receipt: Option<Id>)
    | NoClosureStatus(error: StoreError)

  /** cloudClosureStatusTx; readiness is emptiness, which the final sort and compaction do not affect. */
  function ClosureReadiness(s: State, c: Closure, now: Time): ClosureStatus {
    if !c.phase.ClosurePreparing? then ClosureStatus([], false, None)
    else if !ClosureOwner(s, c) then NoClosureStatus(OwnershipVersionConflict)
    else
      var state := CaptureClosure(s, c);
      var latest := Latest(c.settlements);
      var usable := latest.Some? && latest.value.state == state && latest.value.observedAt <= now
                    && latest.value.expiresAt > now && latest.value.coveredThrough >= c.request.cutoff;
      var financial := if usable then Merge(latest.value.evidence, Local(state.financial)) else Local(state.financial);
      var b := Add([], !usable, EvidenceUnavailable);
      var b := b + ClosureBlockers(financial);
      var b := Add(b, exists x :: x in c.tasks && c.tasks[x].None?, RevocationsPending);
      var b := Add(b, !s.funds.state.Active?, AccountNotActive);
      ClosureStatus(b, b == [], if usable then Some(latest.value.id) else None)
  }

  function CloseCloud(s: State, req: CloseIn, now: Time, closedAt: Time): (r: Outcome)
    ensures r.Done? ==> OnlyClosure(s, r.state)
  {
    if !req.wellFormed then Fail(Conflict)
    else
      var found := LocateClosure(s, req.scope);
      if found.ClosureMissing? then Fail(found.error)
      else
        var c := found.closure;
        if req in c.retired then Fail(CommandRetired)
        else if c.completion.Some? then
          if c.completion.value != req then Fail(IdempotencyConflict) else Done(s)
        else
          var status := ClosureReadiness(s, c, now);
          if status.NoClosureStatus? then Fail(status.error)
          else if !status.ready || status.receipt != Some(req.settlement) then Fail(ClosureNotReady)
          else if c.sourcePeriod < |s.periods| && s.periods[c.sourcePeriod].until.None?
            && closedAt <= s.periods[c.sourcePeriod].from
          then Fail(ConstraintViolation)
          else
            var c' := c.(completion := Some(req), phase := ClosureClosed, version := c.version + 1);
            var periods := if c.sourcePeriod < |s.periods| && s.periods[c.sourcePeriod].until.None?
                           then s.periods[c.sourcePeriod := s.periods[c.sourcePeriod].(until := Some(closedAt))]
                           else s.periods;
            Done(SetClosure(s, req.scope.operation, c')
                 .(periods := periods, funds := s.funds.(state := Closed, version := s.funds.version + 1)))
  }

  function RetireClose(s: State, req: CloseIn): (r: Outcome)
    ensures r.Done? ==> OnlyClosure(s, r.state)
    ensures r.Done? ==> r.state.periods == s.periods && r.state.funds == s.funds.(policy := r.state.funds.policy)
  {
    if !req.wellFormed then Fail(Conflict)
    else
      var found := LocateClosure(s, req.scope);
      if found.ClosureMissing? then Fail(found.error)
      else
        var c := found.closure;
        if req in c.retired then Done(s)
        else if c.completion.Some? then
          if c.completion.value != req then Fail(IdempotencyConflict) else Done(s)
        else if !c.phase.ClosurePreparing? then Fail(Conflict)
        else Done(SetClosure(s, req.scope.operation, c.(retired := c.retired + {req})))
  }

  function CancelClosure(s: State, scope: ClosureScope, cancellation: Id, decision: Id, wellFormed: bool): (r: Outcome)
    ensures r.Done? ==> OnlyClosure(s, r.state)
    ensures r.Done? ==> r.state.periods == s.periods && r.state.funds == s.funds.(policy := r.state.funds.policy)
  {
    if !wellFormed then Fail(Conflict)
    else
      var found := LocateClosure(s, scope);
      if found.ClosureMissing? then Fail(found.error)
      else
        var c := found.closure;
        if c.cancellation.Some? then
          if c.cancellation.value != (cancellation, decision) then Fail(IdempotencyConflict) else Done(s)
        else if !c.phase.ClosurePreparing? then Fail(Conflict)
        else Done(SetClosure(s, scope.operation,
                             c.(cancellation := Some((cancellation, decision)), phase := Canceling,
                                version := c.version + 1)))
  }

  function CompleteCancellation(
    s: State, scope: ClosureScope, cancellation: Id, release: Id, wellFormed: bool): (r: Outcome)
    ensures r.Done? ==> OnlyClosure(s, r.state)
    ensures r.Done? ==> r.state.periods == s.periods && r.state.funds == s.funds.(policy := r.state.funds.policy)
  {
    if !wellFormed then Fail(Conflict)
    else
      var found := LocateClosure(s, scope);
      if found.ClosureMissing? then Fail(found.error)
      else
        var c := found.closure;
        if c.cancellation.None? then Fail(NotFound)
        else if c.cancellation.value.0 != cancellation then Fail(IdempotencyConflict)
        else if c.release.Some? then
          if c.release.value != release then Fail(IdempotencyConflict) else Done(s)
        else if !c.phase.Canceling? then Fail(Conflict)
        else Done(SetClosure(s, scope.operation,
                             c.(release := Some(release), phase := ClosureCanceled, version := c.version + 1)))
  }

  // ---------------------------------------------------------------- runs

  datatype MoneyOp =
    | Post(post: PostIn)
    | Transition(intent: nat, to: IntentState, ref: string)
    | TopUp(topUp: TopUpIn)
    | Charge(charged: nat)
    | Reference(referenced: nat, reported: string)
    | SetPolicy(policy: Policy, expected: int, active: bool, capable: bool, consented: bool)
    | DropPolicy
    | Reverse(reversal: ReversalIn)
    | Resolve(event: nat, evidence: Id, resolveOk: bool)
    | BindPast(boundIntent: nat, period: nat, proof: Id, bindOk: bool)

  datatype HandoffOp =
    | Recreate(creation: Creation)
    | Initialize(initial: InitializeIn)
    | Prepare(prepare: PrepareIn)
    | SettleHandoff(settlement: SettlementIn)
    | Confirm(confirm: ConfirmIn)
    | Authorize(authorize: AuthorizeIn)
    | Decide(decided: FinalizeIn)
    | Finalize(finalized: FinalizeIn)
    | Abort(abort: AbortIn)
    | EndAbort(endAbort: CompleteAbortIn)

  datatype ClosureOp =
    | PrepareClose(prepareClose: PrepareClosureIn, subjects: set<Subject>, at: Time)
    | Revoke(scope: ClosureScope, subject: Subject, ack: Id, revokeOk: bool)
    | SettleClosure(closing: ClosureSettlementIn, at: Time)
    | Close(close: CloseIn, at: Time, closedAt: Time)
    | RetireCommand(retire: CloseIn)
    | Cancel(scope: ClosureScope, cancellation: Id, decision: Id, cancelOk: bool)
    | EndCancel(scope: ClosureScope, cancellation: Id, release: Id, endOk: bool)

  /** `Elsewhere` is any write by invoice, usage, job, webhook or setup code to its own rows. */
  datatype Op =
    | OnMoney(money: MoneyOp)
    | OnHandoff(handoff: HandoffOp)
    | OnClosure(closure: ClosureOp)
    | Elsewhere(env: Env)

  function MoneyStep(s: State, op: MoneyOp): (r: Outcome)
    ensures r.Done? ==> OnlyMoney(s, r.state)
  {
    match op
    case Post(req) => PostLedgerEntry(s, req)
    case Transition(i, to, ref) => TransitionIntent(s, i, to, ref)
    case TopUp(req) => CreateTopUp(s, req)
    case Charge(i) => BeginCharge(s, i)
    case Reference(i, ref) => NoteReference(s, i, ref)
    case SetPolicy(p, v, a, c, ok) => PutPolicy(s, p, v, a, c, ok)
    case DropPolicy => DisablePolicy(s)
    case Reverse(req) => RecordReversal(s, req)
    case Resolve(k, evidence, ok) => ResolveReversal(s, k, evidence, ok)
    case BindPast(i, p, proof, ok) => BindHistorical(s, i, p, proof, ok)
  }

  function HandoffStep(s: State, op: HandoffOp): (r: Outcome)
    ensures r.Done? ==> OnlyHandoff(s, r.state)
  {
    match op
    case Recreate(req) => ReplayCreation(s, req)
    case Initialize(req) => InitializeResponsibility(s, req)
    case Prepare(req) => PrepareHandoff(s, req)
    case SettleHandoff(req) => RecordSettlement(s, req)
    case Confirm(req) => ConfirmSnapshot(s, req)
    case Authorize(req) => AuthorizeCommit(s, req)
    case Decide(req) => DecideCommit(s, req)
    case Finalize(req) => FinalizeCommit(s, req)
    case Abort(req) => BeginAbort(s, req)
    case EndAbort(req) => CompleteAbort(s, req)
  }

  function ClosureStep(s: State, op: ClosureOp): (r: Outcome)
    ensures r.Done? ==> OnlyClosure(s, r.state)
  {
    match op
    case PrepareClose(req, subjects, now) => PrepareClosure(s, req, subjects, now)
    case Revoke(scope, subject, ack, ok) => RecordRevocation(s, scope, subject, ack, ok)
    case SettleClosure(req, now) => RecordClosureSettlement(s, req, now)
    case Close(req, now, closedAt) => CloseCloud(s, req, now, closedAt)
    case RetireCommand(req) => RetireClose(s, req)
    case Cancel(scope, id, decision, ok) => CancelClosure(s, scope, id, decision, ok)
    case EndCancel(scope, id, release, ok) => CompleteCancellation(s, scope, id, release, ok)
  }

  function Attempt(s: State, op: Op): Outcome {
    match op
    case OnMoney(m) => MoneyStep(s, m)
    case OnHandoff(h) => HandoffStep(s, h)
    case OnClosure(c) => ClosureStep(s, c)
    case Elsewhere(env) => Done(s.(env := env))
  }

  function Step(s: State, op: Op): State {
    var r := Attempt(s, op);
    if r.Done? then r.state else s
  }

  function Run(s: State, ops: seq<Op>): State {
    if |ops| == 0 then s else Step(Run(s, ops[..|ops| - 1]), ops[|ops| - 1])
  }

  /** A provisioned account: fresh books, not closed, no protocol records, and at most the first
      responsibility period, present exactly when the account was created by BootstrapBrandCloud. */
  predicate Init(s: State) {
    && s.funds.balance == 0 && s.funds.ledger == [] && s.funds.intents == [] && !s.funds.state.Closed?
    && s.funds.policy.None? && s.claims == Claims(map[], []) && s.handoffs == map[] && s.closures == map[]
    && s.receiptIds == map[] && s.closureReceiptIds == map[]
    && s.periods == (if s.creation.None? then []
                     else [Period(s.creation.value.owner, 1, s.creation.value.occurredAt, None,
                                  s.creation.value.evidence, None)])
  }
}
