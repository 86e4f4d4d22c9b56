/** What the steps that move money and payments do, exactly: when each succeeds, and every row it leaves behind. */
module AccountEffects {
  import opened Common
  import opened Evidence
  import opened Account
  import opened AccountBooks
  import opened AccountReversals
  import opened AccountTopUps
  import opened AccountHandoff
  import opened AccountPolicy

  // ---------------------------------------------------------------- the predecessor's policy

  /** No policy, or the same one switched off, disarmed, and one generation on. */
  predicate Retired(p: Option<Policy>, q: Option<Policy>) {
    if p.None? then q.None?
    else q.Some? && !q.value.enabled && !q.value.armed && q.value.generation == p.value.generation + 1
  }

  /** The handoff is finalized by the step from s to t. */
  predicate FinalizedBy(s: State, t: State, id: Id) {
    && id in t.handoffs && t.handoffs[id].phase.Finalized?
    && !(id in s.handoffs && s.handoffs[id].phase.Finalized?)
  }

  /** Whatever the step: one that finalizes a handoff retires the predecessor's policy. */
  lemma TransferRetiresPolicy(s: State, op: Op, id: Id)
    requires FinalizedBy(s, Step(s, op), id)
    ensures Retired(s.funds.policy, Step(s, op).funds.policy)
  {
    if op.OnHandoff? && op.handoff.Finalize? {
      FinalizeStep(s, op.handoff.finalized);
      hide Step;
      hide Capture;
      hide FindOpen;
    } else {
      OnlyFinalizeFinalizes(s, op);
      hide Step;
    }
  }

  /** So after a finalization no automatic top-up is born until somebody sets a policy. */
  lemma NoTopUpAfterTransfer(s: State, op: Op, id: Id, more: seq<Op>)
    requires FinalizedBy(s, Step(s, op), id) && NoneSets(more)
    ensures NoneBorn(Step(s, op).funds, Run(Step(s, op), more).funds) && Dormant(Run(Step(s, op), more).funds)
  {
    TransferRetiresPolicy(s, op, id);
    hide Step;
    RunStaysOff(Step(s, op), more);
  }

  /** A step that opens a closure leaves no policy that is on or armed. */
  lemma ClosureQuietsPolicy(s: State, op: Op, id: Id)
    requires id !in s.closures && id in Step(s, op).closures
    ensures Dormant(Step(s, op).funds)
  {
    hide MoneyStep;
    hide HandoffStep;
    hide RecordRevocation;
    hide RecordClosureSettlement;
    hide RetireClose;
    hide CancelClosure;
    hide CompleteCancellation;
    hide ClosureReadiness;
    hide FindOpen;
    hide Fenced;
    if op.OnClosure? && !op.closure.PrepareClose? { OthersOpenNothing(s, op.closure); }
  }

  lemma OthersOpenNothing(s: State, op: ClosureOp)
    requires !op.PrepareClose?
    ensures ClosureStep(s, op).Done? ==> ClosureStep(s, op).state.closures.Keys == s.closures.Keys
  {
    hide ClosureReadiness;
    hide Capture;
    hide Merge;
    hide Local;
  }

  // ---------------------------------------------------------------- automatic top-up

  predicate Sane(p: Policy) {
    && p.threshold >= 1 && p.topUp >= 1 && 1 <= p.attemptLimit <= 10 && p.amountLimit >= p.topUp && p.cooldown >= 300
    && p.generation >= 1 && p.version >= 1 && p.failures >= 0
  }

  predicate AllOver(intents: seq<Intent>) {
    forall i :: 0 <= i < |intents| ==>
      intents[i].state.Succeeded? || intents[i].state.Failed? || intents[i].state.Canceled?
  }

  /** The policy asks for a top-up now. */
  predicate Wanted(f: Funds, now: Time, via: Method) {
    f.policy.Some? &&
    var p := f.policy.value;
    && p.enabled && p.armed && f.balance < p.threshold && AllOver(f.intents) && via.active && via.capable
    && (p.lastTriggered.Some? ==> now >= p.lastTriggered.value + 1_000_000 * p.cooldown)
    && AutoCount(f.intents, DayStart(now)) < p.attemptLimit
    && AutoAmount(f.intents, DayStart(now)) + p.topUp <= p.amountLimit
  }

  /** What the store's two queries return, intent by intent. */
  lemma QueriesCount(intents: seq<Intent>, x: Intent, since: Time)
    ensures AutoCount([], since) == 0 && AutoAmount([], since) == 0
    ensures AutoCount(intents + [x], since) - AutoCount(intents, since)
            == if x.reason.AutoTopUp? && x.createdAt >= since then 1 else 0
    ensures AutoAmount(intents + [x], since) - AutoAmount(intents, since)
            == if x.reason.AutoTopUp? && x.createdAt >= since && !x.state.Failed? && !x.state.Canceled?
               then x.amount else 0
  {
    assert (intents + [x])[..|intents|] == intents;
  }

  /** The billing day starts at midnight, eight hours ahead of UTC, and holds the instant. */
  lemma DayIsUtc8(t: Time)
    ensures DayStart(t) <= t < DayStart(t) + 24 * 3600 * 1_000_000
    ensures (DayStart(t) + 8 * 3600 * 1_000_000) % (24 * 3600 * 1_000_000) == 0
  {
  }

  /** The intent an automatic top-up creates. */
  function TopUpOf(p: Policy, now: Time, via: Method): Intent {
    Intent(amount := p.topUp, reason := AutoTopUp, provider := via.provider, idempotencyKey := None,
           policyGeneration := p.generation, state := Created, providerRef := "", createdAt := now)
  }

  /** Evaluating the policy after a debit: behind a fence or without a policy nothing happens, a broken policy is an
      error, and otherwise exactly a wanted top-up is created, of the policy's amount, and disarms it. */
  lemma AutoTopUpIff(s: State, now: Time, via: Method)
    ensures var r := RunAutoTopUp(s, now, via);
            && (Fenced(s) || s.funds.policy.None? ==> r == Done(s))
            && (!Fenced(s) && s.funds.policy.Some? ==>
                  && (r.Fail? <==> !Sane(s.funds.policy.value))
                  && (r.Done? && !Wanted(s.funds, now, via) ==> r.state == s)
                  && (r.Done? && Wanted(s.funds, now, via) ==>
                        BornFrom(s, r.state, TopUpOf(s.funds.policy.value, now, via), now)))
  {
    hide Fenced;
    hide AutoCount;
    hide AutoAmount;
    hide FindOpen;
    assert HasOpen(s.funds.intents) <==> !AllOver(s.funds.intents);
    hide HasOpen;
    hide AllOver;
  }

  /** One intent more, bound as new payments are, and the policy disarmed and stamped. */
  ghost predicate BornFrom(s: State, t: State, x: Intent, now: Time) {
    && s.funds.policy.Some? && t.funds.intents == s.funds.intents + [x]
    && t.funds == s.funds.(intents := t.funds.intents, policy := t.funds.policy)
    && t.funds.policy == Some(s.funds.policy.value.(armed := false, lastTriggered := Some(now),
                                                    version := s.funds.policy.value.version + 1))
    && t.claims == Bind(s, |s.funds.intents|) && t == s.(funds := t.funds, claims := t.claims)
  }

  /** A new payment is bound to the responsibility period that is open, if one is; no other binding changes. */
  lemma BindsToOpenPeriod(s: State, i: nat, p: nat)
    requires p < |s.periods| && s.periods[p].until.None?
    requires forall q :: 0 <= q < |s.periods| && s.periods[q].until.None? ==> q == p
    ensures Bind(s, i).bindings == s.claims.bindings[i := Binding(p, s.periods[p].evidence)]
    ensures Bind(s, i).events == s.claims.events
  { }

  // ---------------------------------------------------------------- posting

  predicate RightReason(direction: Direction, reason: LedgerReason) {
    if direction.Credit? then reason in {PaymentTopUpCredit, ManualAdjustmentCredit}
    else reason in {InvoiceDebit, UsageAdjustmentDebit, ManualAdjustmentDebit}
  }

  predicate Replays(f: Funds, req: PostIn, j: nat) {
    && j < |f.ledger| && f.ledger[j].key == req.key && f.ledger[j].direction == req.direction
    && f.ledger[j].amount == req.amount && f.ledger[j].reason == req.reason && f.ledger[j].source == req.source
  }

  function After(f: Funds, req: PostIn): int {
    f.balance + if req.direction.Credit? then req.amount else -req.amount
  }

  /** A posting that would write a new row. */
  ghost predicate Postable(s: State, req: PostIn) {
    && (forall j :: 0 <= j < |s.funds.ledger| ==> s.funds.ledger[j].key != req.key)
    && IsInt64(After(s.funds, req)) && (req.direction.Credit? ==> !Fenced(s))
    && (req.direction.Debit? && s.funds.state.Active? && !Fenced(s) && s.funds.policy.Some? ==>
          Sane(s.funds.policy.value))
  }

  ghost predicate Admissible(s: State, req: PostIn) {
    req.wellFormed && req.currency.TWD? && req.amount >= 1 && RightReason(req.direction, req.reason)
    && !s.funds.state.Closed?
  }

  lemma InsertIff(f: Funds, req: PostIn)
    requires req.amount >= 1 && IsInt64(f.balance) && !HasKey(f.ledger, req.key)
    ensures var ins := InsertEntry(f, req.direction, req.amount, req.reason, req.key, req.source);
            && (ins.Inserted? <==> IsInt64(After(f, req)))
            && (ins.Inserted? ==>
                  var e := Entry(req.direction, req.amount, req.reason, req.key, req.source, After(f, req));
                  ins.funds == f.(balance := After(f, req), version := f.version + 1, ledger := f.ledger + [e]))
  { }

  /** What follows the new row never takes it back, except that a broken policy fails the whole posting. */
  lemma FollowUp(s: State, req: PostIn, f: Funds)
    ensures var t := s.(funds := f); var r := RunAutoTopUp(t, req.now, req.via);
            && (r.Done? <==> Fenced(s) || f.policy.None? || Sane(f.policy.value))
            && (r.Done? ==>
                  r.state.funds.ledger == f.ledger && r.state.funds.balance == f.balance
                    && r.state.funds.version == f.version)
    ensures var t := Rearm(s.(funds := f)).funds;
            t.ledger == f.ledger && t.balance == f.balance && t.version == f.version
  {
    FenceIgnoresFunds(s);
    AutoTopUpIff(s.(funds := f), req.now, req.via);
    hide RunAutoTopUp;
    hide Fenced;
    hide Wanted;
    hide Sane;
  }

  lemma PostNewIff(s: State, req: PostIn)
    requires IsInt64(s.funds.balance) && !HasKey(s.funds.ledger, req.key)
    ensures var r := PostLedgerEntry(s, req);
            && (r.Done? <==> Admissible(s, req) && Postable(s, req))
            && (r.Done? ==> Posted(s, r.state, req))
  {
    hide RunAutoTopUp;
    hide Rearm;
    hide Fenced;
    hide Sane;
    hide InsertEntry;
    if req.amount >= 1 {
      InsertIff(s.funds, req);
      var ins := InsertEntry(s.funds, req.direction, req.amount, req.reason, req.key, req.source);
      if ins.Inserted? { FollowUp(s, req, ins.funds); }
    }
    assert FindEntry(s.funds.ledger, req.key).None?;
    assert forall j :: 0 <= j < |s.funds.ledger| ==> s.funds.ledger[j].key != req.key;
    hide HasKey;
    hide FindEntry;
  }

  lemma PostAgainIff(s: State, req: PostIn)
    requires BooksLaw(s.funds) && HasKey(s.funds.ledger, req.key)
    ensures var r := PostLedgerEntry(s, req);
            && (r.Done? <==> Admissible(s, req) && exists j: nat :: Replays(s.funds, req, j))
            && (r.Done? ==> r.state == s)
  {
    ReplayFound(s.funds, req);
    hide BooksLaw;
    hide RunAutoTopUp;
    hide Rearm;
    hide Fenced;
    hide InsertEntry;
    hide FindEntry;
  }

  /** A posting succeeds exactly when it is admissible and either replays its own entry or can write a new one; the
      new row says what was asked, the balance moves by exactly the amount. */
  lemma PostIff(s: State, req: PostIn)
    requires BooksLaw(s.funds)
    ensures var r := PostLedgerEntry(s, req);
            && (r.Done? <==> Admissible(s, req) && ((exists j: nat :: Replays(s.funds, req, j)) || Postable(s, req)))
            && (r.Done? && (exists j: nat :: Replays(s.funds, req, j)) ==> r.state == s)
            && (r.Done? && !(exists j: nat :: Replays(s.funds, req, j)) ==> Posted(s, r.state, req))
  {
    hide PostLedgerEntry;
    hide Posted;
    hide Admissible;
    if HasKey(s.funds.ledger, req.key) {
      PostAgainIff(s, req);
    } else {
      PostNewIff(s, req);
    }
    hide Fenced;
    hide Sane;
  }

  ghost predicate Posted(s: State, t: State, req: PostIn) {
    && t.funds.balance == After(s.funds, req) && t.funds.version == s.funds.version + 1
    && t.funds.ledger
       == s.funds.ledger + [Entry(req.direction, req.amount, req.reason, req.key, req.source, After(s.funds, req))]
  }

  lemma FenceIgnoresFunds(s: State)
    ensures forall f :: Fenced(s.(funds := f)) == Fenced(s)
  { }

  lemma ReplayFound(f: Funds, req: PostIn)
    requires BooksLaw(f)
    ensures var k := FindEntry(f.ledger, req.key);
            && (k.Some? && Replays(f, req, k.value) <==> exists j: nat :: Replays(f, req, j))
            && (k.None? <==> forall j :: 0 <= j < |f.ledger| ==> f.ledger[j].key != req.key)
  {
    var k := FindEntry(f.ledger, req.key);
    OneEntryPerKey(f);
    hide BooksLaw;
    if exists j: nat :: Replays(f, req, j) {
      var j: nat :| Replays(f, req, j);
      assert HasKey(f.ledger, req.key);
    }
  }

  /** A credit re-arms an enabled policy whose threshold the balance reaches, outside a fence, and calls attention
      off. */
  lemma CreditRearms(s: State, f: Funds)
    ensures var t := Rearm(s.(funds := f)).funds;
            if !Fenced(s) && f.policy.Some? && f.policy.value.enabled && f.balance >= f.policy.value.threshold then
              && t.policy.Some? && t.policy.value.armed
              && t.policy.value == f.policy.value.(armed := true, version := t.policy.value.version)
              && t.state == (if f.state.AttentionRequired? then Active else f.state)
            else t == f
  {
    FenceIgnoresFunds(s);
    hide Fenced;
  }
}
