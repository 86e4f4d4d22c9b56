/** What happens to payments, exactly: which transitions there are, when one succeeds, what it does to books, policy
    and account, and when a payment can be created at all. */
module AccountPayments {
  import opened Common
  import opened Evidence
  import opened Account
  import opened AccountBooks
  import opened AccountReversals
  import opened AccountTopUps
  import opened AccountHandoff
  import opened AccountEffects

  // ---------------------------------------------------------------- the transition graph

  const OUTCOMES: set<IntentState> := {Succeeded, Failed, Canceled}

  /** From each open state, the states it can move to. */
  function Successors(from: IntentState): set<IntentState> {
    match from
    case Created => {Processing, Canceled}
    case Processing => {Authorized, RequiresAction, Unknown} + OUTCOMES
    case Authorized => {Unknown} + OUTCOMES
    case RequiresAction => {Processing, Authorized, Unknown} + OUTCOMES
    case Unknown => {Authorized} + OUTCOMES
    case _ => {}
  }

  /** The graph has these edges and no others: outcomes are final, nothing returns to created, and a payment that was
      never sent can only be sent or canceled. */
  lemma TransitionsAre(from: IntentState, to: IntentState)
    ensures CanTransition(from, to) <==> from == to || to in Successors(from)
    ensures Terminal(from) <==> from in OUTCOMES
    ensures from in OUTCOMES ==> (CanTransition(from, to) <==> to == from)
    ensures CanTransition(from, Created) ==> from.Created?
    ensures from.Created? && CanTransition(from, to) ==> to in {Created, Processing, Canceled}
  { }

  // ---------------------------------------------------------------- transitions

  predicate RefsAgree(x: Intent, ref: string) { x.providerRef == "" || ref == "" || x.providerRef == ref }

  /** The intent after it moved: its state, and the provider's reference if it had none. */
  function MovedTo(x: Intent, to: IntentState, ref: string): Intent {
    x.(state := to, providerRef := if x.providerRef == "" then ref else x.providerRef)
  }

  /** A transition succeeds exactly when the intent exists, the references agree, and it is a repetition or an edge of
      the graph that, into success, leaves room for a new credit. */
  lemma TransitionIff(s: State, i: nat, to: IntentState, ref: string)
    requires IsInt64(s.funds.balance)
    requires i < |s.funds.intents| ==> s.funds.intents[i].amount >= 1
    ensures var r := TransitionIntent(s, i, to, ref);
            && (r.Done? <==>
                  && i < |s.funds.intents| && RefsAgree(s.funds.intents[i], ref)
                  && (s.funds.intents[i].state == to || CanMove(s, i, to)))
            && (r.Done? && s.funds.intents[i].state == to ==> r.state == s)
            && (r.Done? && s.funds.intents[i].state != to ==> Moved(s, r.state, i, to, ref))
  {
    if i < |s.funds.intents| { TransitionsAre(s.funds.intents[i].state, to); }
    hide CanTransition;
    hide Successors;
    hide AfterSuccess;
    hide AfterNonSuccess;
    if i < |s.funds.intents| {
      var moved := MovedTo(s.funds.intents[i], to, ref);
      PolicyFollows(s.funds.(intents := s.funds.intents[i := moved]), moved);
      var ins := InsertEntry(s.funds.(intents := s.funds.intents[i := moved]), Credit, moved.amount, PaymentTopUpCredit,
                             IntentKey(i), "payment_worker");
      if ins.Inserted? { PolicyFollows(ins.funds, moved); }
    }
  }

  ghost predicate CanMove(s: State, i: nat, to: IntentState)
    requires i < |s.funds.intents|
  {
    && to in Successors(s.funds.intents[i].state)
    && (to.Succeeded? ==>
          s.funds.balance + s.funds.intents[i].amount <= MAX_INT64 && !HasKey(s.funds.ledger, IntentKey(i)))
  }

  /** The one intent moved; a success added its amount and its one entry; nothing else in the books changed. */
  ghost predicate Moved(s: State, t: State, i: nat, to: IntentState, ref: string)
    requires i < |s.funds.intents|
  {
    var x := s.funds.intents[i];
    && t.funds.intents == s.funds.intents[i := MovedTo(x, to, ref)]
    && t.claims == s.claims
    && (if to.Succeeded? then
          && t.funds.balance == s.funds.balance + x.amount
          && t.funds.ledger
             == s.funds.ledger + [Entry(Credit, x.amount, PaymentTopUpCredit, IntentKey(i), "payment_worker",
                                        s.funds.balance + x.amount)]
        else t.funds.balance == s.funds.balance && t.funds.ledger == s.funds.ledger)
  }

  /** Policy bookkeeping never touches the books or the intents. */
  lemma PolicyFollows(f: Funds, x: Intent)
    ensures AfterSuccess(f, x) == f.(policy := AfterSuccess(f, x).policy, state := AfterSuccess(f, x).state)
    ensures AfterNonSuccess(f, x) == f.(policy := AfterNonSuccess(f, x).policy, state := AfterNonSuccess(f, x).state)
  { }

  /** After a success an enabled policy is armed exactly when the balance has reached its threshold, an account that
      is neither suspended nor closed is active or wants attention accordingly, and a success of the policy's own
      generation clears its failures. */
  lemma SuccessSettles(f: Funds, x: Intent)
    ensures var g := AfterSuccess(f, x);
            if f.policy.Some? && f.policy.value.enabled then
              && g.policy.Some? && g.policy.value.enabled
              && (g.policy.value.armed <==> f.balance >= f.policy.value.threshold)
              && g.policy.value.failures
                 == (if x.reason.AutoTopUp? && x.policyGeneration == f.policy.value.generation then 0
                     else f.policy.value.failures)
              && (f.state.Suspended? || f.state.Closed? ==> g.state == f.state)
              && (f.state.Active? || f.state.AttentionRequired? ==>
                    g.state == if f.balance >= f.policy.value.threshold then Active else AttentionRequired)
            else g == f
  { }

  /** Any other outcome concerns only a policy of the payment's own generation: a loss is counted, disarms, and at the
      third disables; that, or a demand for action, makes an active account want attention. */
  lemma FailureSettles(f: Funds, x: Intent)
    ensures var g := AfterNonSuccess(f, x);
            if x.reason.AutoTopUp? && f.policy.Some? && f.policy.value.generation == x.policyGeneration then
              var p := f.policy.value; var lost := x.state.Failed? || x.state.Canceled?;
              && g.policy.Some?
              && (lost ==> g.policy.value.failures == p.failures + 1 && !g.policy.value.armed
                           && (g.policy.value.enabled <==> p.enabled && p.failures < 2))
              && (!lost ==> g.policy == f.policy)
              && g.state == (if f.state.Active? && (x.state.RequiresAction? || (lost && p.failures >= 2))
                             then AttentionRequired else f.state)
            else g == f
  { }

  /** A reversal that debits the balance disarms an armed policy and calls for attention. */
  lemma DebitDisarms(f: Funds)
    ensures var g := Disarm(f);
            if f.policy.Some? && f.policy.value.armed then
              && g.policy.Some? && !g.policy.value.armed && g.policy.value.enabled == f.policy.value.enabled
              && g.state == (if f.state.Active? then AttentionRequired else f.state) && g.ledger == f.ledger
            else g == f
  { }

  // ---------------------------------------------------------------- creating payments

  predicate SameTopUp(x: Intent, req: TopUpIn) {
    x.amount == req.amount && x.provider == req.provider && x.reason.ManualTopUp?
  }

  /** The customer's top-up: exactly when it succeeds, and the one payment it creates. */
  lemma TopUpIff(s: State, req: TopUpIn)
    ensures var r := CreateTopUp(s, req); var k := FindIntent(s.funds.intents, req.key);
            && (r.Done? <==>
                  && req.wellFormed && req.currency.TWD? && req.amount >= 1
                  && (s.funds.state.Active? || s.funds.state.AttentionRequired?) && !Fenced(s)
                  && (if k.Some? then SameTopUp(s.funds.intents[k.value], req)
                      else req.hosted || (req.methodActive && req.methodCapable)))
            && (r.Done? && k.Some? ==> r.state == s)
            && (r.Done? && k.None? ==>
                  && r.state.funds == s.funds.(intents := r.state.funds.intents)
                  && r.state.funds.intents
                     == s.funds.intents + [Intent(req.amount, ManualTopUp, req.provider, Some(req.key), 0,
                                                  if req.hosted then Processing else Created, "", req.now)]
                  && r.state.claims == Bind(s, |s.funds.intents|))
  {
    hide Fenced;
    hide FindIntent;
    hide FindOpen;
  }

  /** A key finds the payment it was used for. */
  lemma {:induction false} KeyFindsPayment(intents: seq<Intent>, key: string)
    ensures var k := FindIntent(intents, key);
            && (k.Some? ==> intents[k.value].idempotencyKey == Some(key))
            && (k.None? ==> forall i :: 0 <= i < |intents| ==> intents[i].idempotencyKey != Some(key))
  {
    if |intents| > 0 { KeyFindsPayment(intents[..|intents| - 1], key); }
  }

  /** No step creates a payment behind a fence: not a top-up, not the policy. */
  lemma NothingBornBehindFence(s: State, op: Op)
    requires Fenced(s)
    ensures |Step(s, op).funds.intents| == |s.funds.intents|
  {
    hide Fenced;
    hide HandoffStep;
    hide ClosureStep;
    hide Allocate;
    hide AfterSuccess;
    hide AfterNonSuccess;
    hide HasKey;
    hide FindEntry;
    hide FindIntent;
    hide FindEvent;
    hide PostLedgerEntry;
    if op.OnMoney? && op.money.Post? { FencedPost(s, op.money.post); }
    if op.OnMoney? && op.money.Transition? {
      TransitionGrows(s, op.money.intent, op.money.to, op.money.ref);
      TransitionPolicy(s, op.money.intent, op.money.to, op.money.ref, 0, 0);
    }
    hide TransitionIntent;
  }

  lemma FencedPost(s: State, req: PostIn)
    requires Fenced(s)
    ensures PostLedgerEntry(s, req).Done? ==> PostLedgerEntry(s, req).state.funds.intents == s.funds.intents
  {
    FenceIgnoresFunds(s);
    hide Fenced;
    hide HasKey;
    hide FindEntry;
  }

  // ---------------------------------------------------------------- policies

  predicate SaneTerms(p: Policy) {
    && p.threshold >= 1 && p.topUp >= 1 && 1 <= p.attemptLimit <= 10 && p.amountLimit >= p.topUp && p.cooldown >= 300
  }

  /** The new policy: the terms as given, armed, a new generation, no failures, never triggered. */
  predicate SetAnew(was: Option<Policy>, p: Policy, q: Option<Policy>) {
    && q.Some? && q.value.armed && q.value.failures == 0 && q.value.lastTriggered.None?
    && q.value.generation == (if was.Some? then was.value.generation + 1 else 1)
    && q.value.enabled == p.enabled && q.value.threshold == p.threshold && q.value.topUp == p.topUp
    && q.value.attemptLimit == p.attemptLimit && q.value.amountLimit == p.amountLimit && q.value.cooldown == p.cooldown
  }

  /** A policy is set exactly on an open, unfenced account, with consent and a live, capable method, on sane terms, over
      the version the caller saw. */
  lemma PolicySetIff(s: State, p: Policy, expected: int, active: bool, capable: bool, consented: bool)
    requires s.funds.policy.Some? ==> s.funds.policy.value.generation >= 0 && s.funds.policy.value.version >= 0
    ensures var r := PutPolicy(s, p, expected, active, capable, consented); var was := s.funds.policy;
            && (r.Done? <==>
                  && !s.funds.state.Closed? && !Fenced(s) && active && capable && consented && SaneTerms(p)
                  && (expected > 0 ==> was.Some? && was.value.version == expected))
            && (r.Done? ==>
                  r.state.funds == s.funds.(policy := r.state.funds.policy) && SetAnew(was, p, r.state.funds.policy))
  {
    hide Fenced;
  }

  /** Disabling switches an enabled policy off, disarmed and one generation on; a disabled one is left alone. */
  lemma PolicyDropped(s: State)
    ensures var r := DisablePolicy(s);
            && (r.Done? <==> s.funds.policy.Some?)
            && (r.Done? && s.funds.policy.value.enabled ==> Retired(s.funds.policy, r.state.funds.policy))
            && (r.Done? && !s.funds.policy.value.enabled ==> r.state == s)
  { }

  // ---------------------------------------------------------------- the smaller writers

  /** A first charge moves a created payment to processing, outside a fence. */
  lemma ChargeIff(s: State, i: nat)
    ensures BeginCharge(s, i).Done? <==>
            i < |s.funds.intents| && s.funds.intents[i].state.Created? && !Fenced(s)
    ensures BeginCharge(s, i).Done? ==>
              BeginCharge(s, i).state.funds
              == s.funds.(intents := s.funds.intents[i := s.funds.intents[i].(state := Processing)])
  {
    hide Fenced;
  }

  /** A webhook may note a reference where there is none, and nothing else. */
  lemma ReferenceIff(s: State, i: nat, ref: string)
    ensures NoteReference(s, i, ref).Done? <==> i < |s.funds.intents| && RefsAgree(s.funds.intents[i], ref)
    ensures NoteReference(s, i, ref).Done? ==>
              var x := s.funds.intents[i];
              NoteReference(s, i, ref).state.funds
              == s.funds.(intents := s.funds.intents[i := x.(providerRef := if x.providerRef == "" then ref
                                                                            else x.providerRef)])
  {
    if i < |s.funds.intents| {
      var x := s.funds.intents[i];
      assert s.funds.intents[i := x] == s.funds.intents;
      assert x.(providerRef := x.providerRef) == x;
    }
  }

  predicate WellPosed(req: ReversalIn) {
    req.wellFormed && (req.reason.RefundDebit? || req.reason.ChargebackDebit?) && req.currency.TWD? && req.amount >= 1
  }

  /** A provider's event is recorded once: repeated as it was it changes nothing, repeated differently it is refused. */
  lemma ReversalRecordedOnce(s: State, req: ReversalIn)
    ensures var r := RecordReversal(s, req); var k := FindEvent(s.claims.events, req.provider, req.reference);
            && (!WellPosed(req) ==> r.Fail?)
            && (WellPosed(req) && k.Some? ==>
                  if s.claims.events[k.value].request == req then r == Done(s) else r.Fail?)
            && (WellPosed(req) && k.None? && r.Done? ==>
                  && |r.state.claims.events| == |s.claims.events| + 1
                  && r.state.claims.events[|s.claims.events|].request == req
                  && r.state.claims.events[..|s.claims.events|] == s.claims.events)
  {
    hide Allocate;
    hide FindEvent;
  }

  /** Resolving concerns only an event under review; once allocated, only the same evidence may be repeated. */
  lemma ResolveIff(s: State, k: nat, evidence: Id, wellFormed: bool)
    ensures var r := ResolveReversal(s, k, evidence, wellFormed);
            && (r.Done? ==> wellFormed && k < |s.claims.events| && s.claims.events[k].review.Some?)
            && (r.Done? && s.claims.events[k].allocation.Some? ==>
                  r.state == s && s.claims.events[k].allocation.value.evidence == evidence)
            && (r.Done? && s.claims.events[k].allocation.None? ==>
                  && r.state.claims.events[k].allocation.Some?
                  && r.state.claims.events[k].allocation.value.evidence == evidence)
  {
    hide ClassifyReversal;
    hide HasKey;
    hide AllocatesOnly;
  }

  /** A payment without a period may be given one, once. */
  lemma BindIff(s: State, i: nat, p: nat, evidence: Id, wellFormed: bool)
    ensures var r := BindHistorical(s, i, p, evidence, wellFormed);
            && (r.Done? <==>
                  wellFormed && if i in s.claims.bindings then s.claims.bindings[i] == Binding(p, evidence)
                                else i < |s.funds.intents| && p < |s.periods|)
            && (r.Done? ==>
                  r.state.claims == s.claims.(bindings := s.claims.bindings[i := Binding(p, evidence)])
                  && r.state.funds == s.funds)
  {
    assert i in s.claims.bindings ==> s.claims.bindings[i := s.claims.bindings[i]] == s.claims.bindings;
  }
}
