/** Which reversal goes where: to review, against the predecessor who received the payment, or against the balance of
    the account. Said on the rows, for every step. */
module AccountDispositions {
  import opened Common
  import opened Account
  import opened AccountBooks
  import opened AccountReversals

  // ---------------------------------------------------------------- the rows a classification rests on

  /** Entry j is the credit the payment worker wrote for intent i. */
  predicate CreditRow(s: State, j: nat, i: nat) {
    && j < |s.funds.ledger| && i < |s.funds.intents|
    && s.funds.ledger[j].key == IntentKey(i) && s.funds.ledger[j].direction.Credit?
    && s.funds.ledger[j].amount == s.funds.intents[i].amount
    && s.funds.ledger[j].reason.PaymentTopUpCredit? && s.funds.ledger[j].source == "payment_worker"
  }

  /** The payment exists and was made through this provider. */
  predicate Known(s: State, req: ReversalIn) {
    req.intent < |s.funds.intents| && s.funds.intents[req.intent].provider == req.provider
  }

  /** It succeeded and its credit is in the books. */
  ghost predicate Credited(s: State, req: ReversalIn) {
    Known(s, req) && s.funds.intents[req.intent].state.Succeeded? && exists j: nat :: CreditRow(s, j, req.intent)
  }

  /** What other events already took from it leaves room for this one. */
  ghost predicate Fits(s: State, k: int, req: ReversalIn) {
    Credited(s, req) &&
    var taken, amount := AllocatedTo(s.claims.events, req.intent, k), s.funds.intents[req.intent].amount;
    taken <= amount && taken + req.amount <= amount
  }

  /** It is bound to a responsibility period. */
  ghost predicate Attributed(s: State, k: int, req: ReversalIn) {
    Fits(s, k, req) && req.intent in s.claims.bindings && s.claims.bindings[req.intent].period < |s.periods|
  }

  /** The period has ended, or a committed decision hands it over. */
  ghost predicate Passed(s: State, p: nat) {
    || (p < |s.periods| && s.periods[p].until.Some?)
    || (exists id :: id in s.handoffs && s.handoffs[id].sourcePeriod == p && s.handoffs[id].decision.Some?)
  }

  /** Some handoff is between its authorization and its outcome. */
  ghost predicate Undecided(s: State) {
    exists id :: id in s.handoffs &&
      (s.handoffs[id].phase.CommitAuthorized? || s.handoffs[id].phase.Finalizing?
       || (s.handoffs[id].phase.AbortPending? && s.handoffs[id].grant.Some?))
  }

  ghost predicate ForPredecessor(s: State, k: int, req: ReversalIn) {
    Attributed(s, k, req) && Passed(s, s.claims.bindings[req.intent].period)
  }

  ghost predicate ForCurrent(s: State, k: int, req: ReversalIn) {
    && Attributed(s, k, req) && !Passed(s, s.claims.bindings[req.intent].period)
    && !s.funds.state.Closed? && !Undecided(s)
  }

  /** Why an event goes to review, each reason when it is the first that applies. */
  ghost predicate Reviewed(s: State, k: int, req: ReversalIn, reason: ReviewReason) {
    match reason
    case OriginalPaymentUnresolved => req.intent >= |s.funds.intents|
    case OriginalPaymentMismatch => req.intent < |s.funds.intents| && !Known(s, req)
    case OriginalPaymentNotSettled => Known(s, req) && !Credited(s, req)
    case ReversalExceedsCredit => Credited(s, req) && !Fits(s, k, req)
    case ResponsibilityUnproven => Fits(s, k, req) && !Attributed(s, k, req)
    case CommercialAccountClosed =>
      Attributed(s, k, req) && !Passed(s, s.claims.bindings[req.intent].period) && s.funds.state.Closed?
    case OwnershipCommitInProgress =>
      && Attributed(s, k, req) && !Passed(s, s.claims.bindings[req.intent].period)
      && !s.funds.state.Closed? && Undecided(s)
  }

  // ---------------------------------------------------------------- classification

  lemma CreditFound(s: State, i: nat)
    requires BooksLaw(s.funds) && i < |s.funds.intents|
    ensures var k := FindEntry(s.funds.ledger, IntentKey(i));
            k.Some? && CreditRow(s, k.value, i) <==> exists j: nat :: CreditRow(s, j, i)
  {
    var k := FindEntry(s.funds.ledger, IntentKey(i));
    if exists j: nat :: CreditRow(s, j, i) {
      var j: nat :| CreditRow(s, j, i);
      assert HasKey(s.funds.ledger, IntentKey(i));
      OneEntryPerKey(s.funds);
    }
  }

  /** For every state with sound books and every reversal: exactly one answer applies, and it is the one given. */
  lemma ClassifyIff(s: State, k: int, req: ReversalIn)
    requires BooksLaw(s.funds)
    ensures var c := ClassifyReversal(s, k, req);
            && (c.ToPredecessor? <==> ForPredecessor(s, k, req))
            && (c.ToCurrent? <==> ForCurrent(s, k, req))
            && (forall reason :: c == Review(reason) <==> Reviewed(s, k, req, reason))
            && (c.ToPredecessor? ==> c.binding == s.claims.bindings[req.intent])
            && (c.ToCurrent? ==> c.binding == s.claims.bindings[req.intent])
  {
    if req.intent < |s.funds.intents| {
      CreditFound(s, req.intent);
      if req.intent in s.claims.bindings { PassedIs(s, s.claims.bindings[req.intent].period); }
    }
    UndecidedIs(s);
    hide BooksLaw;
    hide FindEntry;
    hide AllocatedTo;
    hide Passed;
    hide Undecided;
    hide DecisionFrom;
    hide CommitPending;
  }

  lemma PassedIs(s: State, p: nat)
    ensures p < |s.periods| ==> (Passed(s, p) <==> s.periods[p].until.Some? || DecisionFrom(s, p))
  { }

  lemma UndecidedIs(s: State)
    ensures Undecided(s) <==> CommitPending(s)
  {
    forall id | id in s.handoffs
      ensures Committing(s.handoffs[id]) <==>
              (s.handoffs[id].phase.CommitAuthorized? || s.handoffs[id].phase.Finalizing?
               || (s.handoffs[id].phase.AbortPending? && s.handoffs[id].grant.Some?))
    { }
  }

  // ---------------------------------------------------------------- over steps

  /** What allocating event k of s does, by the rows of s. */
  lemma AllocateIff(s: State, k: nat, resolution: Option<Id>)
    requires BooksLaw(s.funds) && k < |s.claims.events|
    ensures var req := s.claims.events[k].request; var r := Allocate(s, k, resolution);
            r.Done? ==>
              var a := r.state.claims.events[k].allocation;
              && (ForPredecessor(s, k, req) ==> a.Some? && a.value.disposition.PredecessorAdjustment?)
              && (ForCurrent(s, k, req) ==> a.Some? && a.value.disposition.CurrentBalance?)
              && (a.Some? && a != s.claims.events[k].allocation ==>
                    a.value.period == s.claims.bindings[req.intent].period)
              && (forall reason :: Reviewed(s, k, req, reason) ==>
                    resolution.None? && r.state.claims.events[k].review == Some(reason)
                      && a == s.claims.events[k].allocation)
  {
    ClassifyIff(s, k, s.claims.events[k].request);
    hide ClassifyReversal;
    hide ForPredecessor;
    hide ForCurrent;
    hide Reviewed;
    hide BooksLaw;
    hide HasKey;
  }

  /** Classifying a new event sees the same rows as before it was written down. */
  lemma NewEventSeesSame(s: State, req: ReversalIn)
    ensures var t := s.(claims := s.claims.(events := s.claims.events + [Reversal(req, None, None)]));
            var k := |s.claims.events|;
            && (ForPredecessor(t, k, req) <==> ForPredecessor(s, k, req))
            && (ForCurrent(t, k, req) <==> ForCurrent(s, k, req))
            && (forall reason :: Reviewed(t, k, req, reason) <==> Reviewed(s, k, req, reason))
  {
    var t := s.(claims := s.claims.(events := s.claims.events + [Reversal(req, None, None)]));
    var k := |s.claims.events|;
    assert t.claims.events[..k] == s.claims.events;
    assert AllocatedTo(t.claims.events, req.intent, k) == AllocatedTo(s.claims.events, req.intent, k);
    forall j: nat ensures CreditRow(t, j, req.intent) == CreditRow(s, j, req.intent) { }
    hide AllocatedTo;
    hide CreditRow;
    assert Credited(t, req) == Credited(s, req);
    forall p: nat ensures Passed(t, p) == Passed(s, p) { }
    assert Undecided(t) == Undecided(s);
    hide Passed;
    hide Undecided;
    hide Credited;
  }

  /** The event is allocated by the step from s to t. */
  predicate NewlyAllocated(s: State, t: State, k: nat) {
    && k < |t.claims.events| && t.claims.events[k].allocation.Some?
    && (k < |s.claims.events| ==> s.claims.events[k].allocation.None?)
  }

  /** Whatever the step: an event it allocates is a predecessor's adjustment exactly when the period of its payment
      has passed, and a debit of the balance exactly when it has not, the account is open and no commit is pending. */
  lemma StepDisposes(s: State, op: Op, k: nat)
    requires BooksLaw(s.funds) && NewlyAllocated(s, Step(s, op), k)
    ensures var req := Step(s, op).claims.events[k].request; var a := Step(s, op).claims.events[k].allocation.value;
            && (a.disposition.PredecessorAdjustment? <==> ForPredecessor(s, k, req))
            && (a.disposition.CurrentBalance? <==> ForCurrent(s, k, req))
            && req.intent in s.claims.bindings && a.period == s.claims.bindings[req.intent].period
  {
    hide BooksLaw;
    hide HandoffStep;
    hide ClosureStep;
    hide PostLedgerEntry;
    hide TransitionIntent;
    hide CreateTopUp;
    hide BeginCharge;
    hide NoteReference;
    hide PutPolicy;
    hide DisablePolicy;
    hide BindHistorical;
    hide Allocate;
    hide FindEvent;
    hide ForPredecessor;
    hide ForCurrent;
    hide Reviewed;
    if op.OnMoney? && !op.money.Reverse? && !op.money.Resolve? { EventsUntouched(s, op.money); }
    if op.OnMoney? && op.money.Reverse? { RecordDisposes(s, op.money.reversal, k); }
    if op.OnMoney? && op.money.Resolve? { ResolveDisposes(s, op.money.event, op.money.evidence, k); }
  }

  lemma RecordDisposes(s: State, req: ReversalIn, k: nat)
    requires BooksLaw(s.funds)
    requires RecordReversal(s, req).Done? && NewlyAllocated(s, RecordReversal(s, req).state, k)
    ensures var ev := RecordReversal(s, req).state.claims.events[k];
            && ev.request == req && k == |s.claims.events|
            && (ev.allocation.value.disposition.PredecessorAdjustment? <==> ForPredecessor(s, k, req))
            && (ev.allocation.value.disposition.CurrentBalance? <==> ForCurrent(s, k, req))
            && req.intent in s.claims.bindings && ev.allocation.value.period == s.claims.bindings[req.intent].period
  {
    hide BooksLaw;
    hide Allocate;
    hide FindEvent;
    var t := s.(claims := s.claims.(events := s.claims.events + [Reversal(req, None, None)]));
    var n := |s.claims.events|;
    AllocateIff(t, n, None);
    NewEventSeesSame(s, req);
    OneAnswer(s, n, req);
    hide ForPredecessor;
    hide ForCurrent;
    hide Reviewed;
  }

  lemma ResolveDisposes(s: State, e: nat, evidence: Id, k: nat)
    requires BooksLaw(s.funds) && e < |s.claims.events| && s.claims.events[e].allocation.None?
    ensures var r := Allocate(s, e, Some(evidence));
            r.Done? && NewlyAllocated(s, r.state, k) ==>
              var ev := r.state.claims.events[k];
              && k == e && ev.request == s.claims.events[e].request
              && (ev.allocation.value.disposition.PredecessorAdjustment? <==> ForPredecessor(s, k, ev.request))
              && (ev.allocation.value.disposition.CurrentBalance? <==> ForCurrent(s, k, ev.request))
              && ev.request.intent in s.claims.bindings
              && ev.allocation.value.period == s.claims.bindings[ev.request.intent].period
  {
    hide BooksLaw;
    hide Allocate;
    AllocateIff(s, e, Some(evidence));
    OneAnswer(s, e, s.claims.events[e].request);
    hide ForPredecessor;
    hide ForCurrent;
    hide Reviewed;
  }

  /** Some answer always applies. */
  lemma OneAnswer(s: State, k: int, req: ReversalIn)
    ensures ForPredecessor(s, k, req) || ForCurrent(s, k, req) || exists reason :: Reviewed(s, k, req, reason)
    ensures ForPredecessor(s, k, req) || ForCurrent(s, k, req) ==> req.intent in s.claims.bindings
    ensures !(ForPredecessor(s, k, req) && ForCurrent(s, k, req))
  {
    hide CreditRow;
    hide AllocatedTo;
    hide Passed;
    hide Undecided;
    if !Credited(s, req) {
      assert Reviewed(s, k, req, OriginalPaymentUnresolved) || Reviewed(s, k, req, OriginalPaymentMismatch)
          || Reviewed(s, k, req, OriginalPaymentNotSettled);
    } else if !Attributed(s, k, req) {
      assert Reviewed(s, k, req, ReversalExceedsCredit) || Reviewed(s, k, req, ResponsibilityUnproven);
    } else if !ForPredecessor(s, k, req) && !ForCurrent(s, k, req) {
      assert Reviewed(s, k, req, CommercialAccountClosed) || Reviewed(s, k, req, OwnershipCommitInProgress);
    }
  }

  /** A recorded reversal goes to review exactly for the reason that applies, and then nothing is allocated. */
  lemma RecordReviews(s: State, req: ReversalIn, reason: ReviewReason)
    requires BooksLaw(s.funds) && RecordReversal(s, req).Done?
    requires FindEvent(s.claims.events, req.provider, req.reference).None?
    ensures var ev := RecordReversal(s, req).state.claims.events[|s.claims.events|];
            ev.request == req && (ev.review == Some(reason) <==> Reviewed(s, |s.claims.events|, req, reason))
            && (ev.review.Some? ==> ev.allocation.None? && RecordReversal(s, req).state.funds == s.funds)
  {
    hide BooksLaw;
    hide Allocate;
    hide FindEvent;
    var t := s.(claims := s.claims.(events := s.claims.events + [Reversal(req, None, None)]));
    var n := |s.claims.events|;
    ReviewIff(t, n, reason);
    NewEventSeesSame(s, req);
    hide Reviewed;
  }

  lemma AllocateReviews(s: State, k: nat)
    requires k < |s.claims.events|
    ensures var c := ClassifyReversal(s, k, s.claims.events[k].request); var r := Allocate(s, k, None);
            r.Done? ==>
              var ev := r.state.claims.events[k];
              if c.Review? then
                ev.review == Some(c.reason) && ev.allocation == s.claims.events[k].allocation
                  && r.state.funds == s.funds
              else ev.review == s.claims.events[k].review
  {
    hide ClassifyReversal;
    hide HasKey;
    hide AllocatesOnly;
  }

  lemma ReviewIff(s: State, k: nat, reason: ReviewReason)
    requires BooksLaw(s.funds) && k < |s.claims.events| && s.claims.events[k].review.None?
    requires s.claims.events[k].allocation.None?
    ensures var r := Allocate(s, k, None);
            r.Done? ==>
              && (r.state.claims.events[k].review == Some(reason)
                  <==> Reviewed(s, k, s.claims.events[k].request, reason))
              && (r.state.claims.events[k].review.Some? ==>
                    r.state.claims.events[k].allocation.None? && r.state.funds == s.funds)
  {
    hide ClassifyReversal;
    hide Allocate;
    hide AllocatesOnly;
    hide Reviewed;
    hide BooksLaw;
    ClassifyIff(s, k, s.claims.events[k].request);
    AllocateReviews(s, k);
  }

  /** So in every reachable state, for every next step. */
  lemma RunDisposes(s: State, ops: seq<Op>, op: Op, k: nat)
    requires Init(s) && NewlyAllocated(Run(s, ops), Step(Run(s, ops), op), k)
    ensures var m := Run(s, ops); var ev := Step(m, op).claims.events[k];
            && (ev.allocation.value.disposition.PredecessorAdjustment? <==> ForPredecessor(m, k, ev.request))
            && (ev.allocation.value.disposition.CurrentBalance? <==> ForCurrent(m, k, ev.request))
  {
    hide Step;
    RunKeepsBooks(s, ops);
    hide Run;
    hide BooksLaw;
    StepDisposes(Run(s, ops), op, k);
    hide ForPredecessor;
    hide ForCurrent;
  }
}
