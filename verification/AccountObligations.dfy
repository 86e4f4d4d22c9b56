/** What a transfer or a closure rests on, said on the rows of the account themselves: nothing unpaid, nothing owed,
    nothing in flight, nothing under review. */
module AccountObligations {
  import opened Common
  import opened Evidence
  import opened Account
  import opened AccountHandoff
  import opened AccountClosure

  predicate Over(state: IntentState) { state.Succeeded? || state.Failed? || state.Canceled? }

  predicate UnderReview(ev: Reversal) { ev.review.Some? && ev.allocation.None? }

  /** No unpaid invoice, debt, refund or setup; every payment is over with no work left on it; every reversal that
      went to review has been allocated. */
  ghost predicate NothingOwed(s: State) {
    && s.env.unpaid == 0 && s.env.debt == 0 && s.env.refunds == 0 && s.env.setups == 0
    && (forall i :: 0 <= i < |s.funds.intents| ==> Over(s.funds.intents[i].state) && i !in s.env.busy)
    && (forall k :: 0 <= k < |s.claims.events| ==> !UnderReview(s.claims.events[k]))
  }

  /** A report that is complete and names no obligation. */
  predicate Vouches(e: Financial) {
    && e.usageSettled && e.invoicesReconciled && e.providerReconciled
    && e.unpaidInvoices == 0 && e.debt == 0 && e.pendingPayments == 0 && e.pendingRefunds == 0
    && e.openDisputes == 0 && e.pendingSetups == 0 && e.unresolvedEvents == 0
  }

  // ---------------------------------------------------------------- what the local evidence counts

  lemma {:induction false} NoneUnderReview(events: seq<Reversal>)
    ensures Unresolved(events) == 0 <==> forall k :: 0 <= k < |events| ==> !UnderReview(events[k])
  {
    if |events| > 0 {
      var n := |events| - 1;
      NoneUnderReview(events[..n]);
      assert forall k :: 0 <= k < n ==> events[..n][k] == events[k];
    }
  }

  lemma {:induction false} NonePending(rows: seq<(IntentState, int)>, busy: set<nat>)
    ensures PendingRows(rows, busy) == 0 <==> forall i :: 0 <= i < |rows| ==> Over(rows[i].0) && i !in busy
  {
    if |rows| > 0 {
      var n := |rows| - 1;
      NonePending(rows[..n], busy);
      assert forall i :: 0 <= i < n ==> rows[..n][i] == rows[i];
    }
  }

  /** The store's own evidence is clear of obligations exactly when its rows are. */
  lemma LocalCounts(s: State)
    ensures var e := Local(Capture(s));
            && e.balanceKnown && e.currency == TWD && e.balance == s.funds.balance && !HasNegative(e)
            && (NothingOwed(s) <==>
                  && e.unpaidInvoices == 0 && e.debt == 0 && e.pendingPayments == 0 && e.pendingRefunds == 0
                  && e.pendingSetups == 0 && e.unresolvedEvents == 0)
  {
    var rows := IntentRows(s.funds.intents);
    assert |rows| == |s.funds.intents| && forall i :: 0 <= i < |rows| ==> rows[i].0 == s.funds.intents[i].state;
    assert forall i :: 0 <= i < |s.funds.intents| ==> Over(s.funds.intents[i].state) == Over(rows[i].0);
    NoneUnderReview(s.claims.events);
    NonePending(rows, s.env.busy);
    hide Unresolved;
    hide PendingRows;
    hide IntentRows;
  }

  /** Merged with a report that has no negative counts, it is clear exactly when the report vouches, the rows owe
      nothing and the balance is not negative. */
  lemma MergedClearIff(s: State, e: Financial)
    requires !HasNegative(e)
    ensures TransferBlockers(Merge(e, Local(Capture(s)))) == []
            <==> Vouches(e) && NothingOwed(s) && s.funds.balance >= 0
    ensures ClosureBlockers(Merge(e, Local(Capture(s)))) == [] <==> Vouches(e) && NothingOwed(s) && s.funds.balance == 0
  {
    LocalCounts(s);
    var m := Merge(e, Local(Capture(s)));
    assert m.openDisputes == e.openDisputes && m.usageSettled == e.usageSettled;
    NoBlockersMeansClear(m);
    NoClosureBlockersMeansZero(m);
    hide Local;
    hide Capture;
    hide NothingOwed;
    hide TransferBlockers;
    hide ClosureBlockers;
  }

  /** Two captures are equal exactly when the rows they digest are. */
  lemma CaptureIsExact(s: State, t: State)
    ensures Capture(s) == Capture(t) <==>
            && s.funds.balance == t.funds.balance && s.funds.version == t.funds.version
            && s.funds.state == t.funds.state
            && |s.funds.intents| == |t.funds.intents|
            && (forall i :: 0 <= i < |s.funds.intents| ==>
                  && s.funds.intents[i].state == t.funds.intents[i].state
                  && s.funds.intents[i].amount == t.funds.intents[i].amount)
            && Unresolved(s.claims.events) == Unresolved(t.claims.events) && s.env == t.env
  {
    var a, b := IntentRows(s.funds.intents), IntentRows(t.funds.intents);
    assert forall i :: 0 <= i < |a| ==> a[i] == (s.funds.intents[i].state, s.funds.intents[i].amount);
    assert forall i :: 0 <= i < |b| ==> b[i] == (t.funds.intents[i].state, t.funds.intents[i].amount);
    hide Unresolved;
  }

  // ---------------------------------------------------------------- handoffs

  /** A status without blockers, exactly: under preparation, the receipt of this version saw the account as it is and
      vouches for it, nothing is owed, and the account is open with no negative balance. */
  lemma StatusClearIff(s: State, h: Handoff)
    requires HandoffOk(h)
    ensures SettlementStatus(s, h).Status? && SettlementStatus(s, h).blockers == [] <==>
            && (h.phase.Preparing? || h.phase.Prepared?)
            && h.version in h.receipts && h.receipts[h.version].state == Capture(s)
            && Vouches(h.receipts[h.version].evidence)
            && NothingOwed(s) && s.funds.balance >= 0 && !s.funds.state.Closed?
  {
    hide TransferBlockers;
    hide Merge;
    hide Local;
    hide Capture;
    hide NothingOwed;
    hide Vouches;
    StatusHasSnapshot(s, h);
    if h.version in h.receipts {
      assert Absorbed(h.receipts[h.version]);
      MergedClearIff(s, h.receipts[h.version].evidence);
    }
    hide HandoffOk;
  }

  /** A confirmation is recorded only over rows that owe nothing, and names their balance. */
  lemma ConfirmMeansSettled(s: State, req: ConfirmIn)
    requires HandoffLaw(s) && ConfirmSnapshot(s, req).Done? && ConfirmSnapshot(s, req).state != s
    ensures NothingOwed(s) && req.balance == s.funds.balance >= 0 && !s.funds.state.Closed?
  {
    var h := s.handoffs[req.scope.operation];
    assert HandoffOk(h);
    StatusClearIff(s, h);
    StatusHasSnapshot(s, h);
    SnapshotBalance(s, h);
    hide SettlementStatus;
    hide NothingOwed;
    hide Capture;
    hide HandoffOk;
    hide OpenFor;
  }

  lemma SnapshotBalance(s: State, h: Handoff)
    requires HandoffOk(h) && h.version in h.snapshots && h.receipts[h.version].state == Capture(s)
    ensures h.snapshots[h.version] == s.funds.balance >= 0
  {
    hide Absorbed;
    hide Clean;
    hide GrantOk;
    hide PhaseOk;
  }

  /** The handoff is finalized only over rows that owe nothing. */
  lemma FinalizeMeansSettled(s: State, req: FinalizeIn)
    requires HandoffLaw(s) && FinalizeCommit(s, req).Done? && FinalizeCommit(s, req).state != s
    ensures NothingOwed(s) && s.funds.balance >= 0
  {
    hide HandoffOk;
    hide NothingOwed;
    hide FinalizeCommit;
    FinalizeNeedsGrant(s, req);
    GrantedIsClear(s, s.handoffs[req.scope.operation]);
  }

  lemma FinalizeNeedsGrant(s: State, req: FinalizeIn)
    requires FinalizeCommit(s, req).Done? && FinalizeCommit(s, req).state != s
    ensures req.scope.operation in s.handoffs && s.handoffs[req.scope.operation].grant.Some?
    ensures s.handoffs[req.scope.operation].grant.value.state == Capture(s)
  {
    hide Capture;
    hide FindOpen;
    hide OpenFor;
  }

  lemma GrantedIsClear(s: State, h: Handoff)
    requires HandoffOk(h) && h.grant.Some? && h.grant.value.state == Capture(s)
    ensures NothingOwed(s) && s.funds.balance >= 0
  {
    var r := h.receipts[h.grant.value.request.version];
    assert Clean(r) && Absorbed(r);
    MergedClearIff(s, r.evidence);
    hide TransferBlockers;
    hide Merge;
    hide Local;
    hide Capture;
    hide NothingOwed;
  }

  // ---------------------------------------------------------------- closures

  /** The settlement with the latest observation can be used: it saw the closure as it is, and it is current. */
  ghost predicate Usable(s: State, c: Closure, r: ClosureReceipt, now: Time) {
    && r in c.settlements && (forall x :: x in c.settlements ==> x.observedAt <= r.observedAt)
    && r.state == CaptureClosure(s, c) && r.observedAt <= now < r.expiresAt && r.coveredThrough >= c.request.cutoff
  }

  /** Ready, exactly: preparing, still the owner's, the latest settlement is usable and vouches for the account,
      nothing is owed, the balance is zero, every revocation is acknowledged and the account is active. */
  lemma ReadyIff(s: State, c: Closure, now: Time)
    requires ClosureOk(c)
    ensures ClosureReadiness(s, c, now).ClosureStatus? && ClosureReadiness(s, c, now).ready <==>
            && c.phase.ClosurePreparing? && ClosureOwner(s, c)
            && Latest(c.settlements).Some? && Usable(s, c, Latest(c.settlements).value, now)
            && Vouches(Latest(c.settlements).value.evidence)
            && NothingOwed(s) && s.funds.balance == 0 && s.funds.state.Active?
            && (forall x :: x in c.tasks ==> c.tasks[x].Some?)
  {
    hide ClosureBlockers;
    hide Merge;
    hide Local;
    hide Capture;
    hide NothingOwed;
    hide Vouches;
    hide Latest;
    hide ClosureOwner;
    if Latest(c.settlements).Some? {
      LatestIsOk(c);
      MergedClearIff(s, Latest(c.settlements).value.evidence);
    }
    hide ClosureOk;
    hide SettlementOk;
  }

  lemma LatestIsOk(c: Closure)
    requires ClosureOk(c) && Latest(c.settlements).Some?
    ensures !HasNegative(Latest(c.settlements).value.evidence)
  {
    var r := Latest(c.settlements).value;
    var i :| 0 <= i < |c.settlements| && c.settlements[i] == r;
    assert SettlementOk(c.settlements[i]);
  }

  /** The account is closed only over rows that owe nothing, at balance zero, with every revocation acknowledged. */
  lemma CloseMeansSettled(s: State, req: CloseIn, now: Time, closedAt: Time)
    requires ClosureLaw(s) && CloseCloud(s, req, now, closedAt).Done? && CloseCloud(s, req, now, closedAt).state != s
    ensures NothingOwed(s) && s.funds.balance == 0 && s.funds.state.Active?
    ensures req.scope.operation in s.closures
    ensures forall x :: x in s.closures[req.scope.operation].tasks ==> s.closures[req.scope.operation].tasks[x].Some?
  {
    hide ClosureReadiness;
    hide NothingOwed;
    var c := s.closures[req.scope.operation];
    assert ClosureOk(c);
    ReadyIff(s, c, now);
    hide ClosureOk;
    hide Usable;
  }

  // ---------------------------------------------------------------- over runs

  /** A participant's confirmation is new in t. */
  ghost predicate Confirms(s: State, t: State) {
    exists id, c :: id in t.handoffs && c in t.handoffs[id].confirmed
      && !(id in s.handoffs && c in s.handoffs[id].confirmed)
  }

  ghost predicate Finalizes(s: State, t: State) {
    exists id :: id in t.handoffs && t.handoffs[id].phase.Finalized?
      && !(id in s.handoffs && s.handoffs[id].phase.Finalized?)
  }

  lemma OnlyConfirmConfirms(s: State, op: HandoffOp)
    requires !op.Confirm?
    ensures HandoffStep(s, op).Done? ==> !Confirms(s, HandoffStep(s, op).state)
  {
    hide SettlementStatus;
    hide Capture;
    hide Fenced;
    hide FindOpen;
    hide OpenFor;
    hide TransferBlockers;
    hide Merge;
  }

  /** Whatever came before: an account is closed, a snapshot is confirmed and a handoff is finalized only while
      nothing is owed, and closed only at balance zero. */
  lemma RunSettlesFirst(s: State, ops: seq<Op>, op: Op)
    requires Init(s)
    ensures var m := Run(s, ops); var t := Step(m, op);
            && (t.funds.state.Closed? && !m.funds.state.Closed? ==> NothingOwed(m) && m.funds.balance == 0)
            && (Confirms(m, t) || Finalizes(m, t) ==> NothingOwed(m) && m.funds.balance >= 0)
  {
    hide Step;
    RunKeepsHandoffs(s, ops);
    RunKeepsExclusion(s, ops);
    hide Run;
    SettlesFirst(Run(s, ops), op);
  }

  lemma SettlesFirst(m: State, op: Op)
    requires HandoffLaw(m) && ClosureLaw(m)
    ensures var t := Step(m, op);
            && (t.funds.state.Closed? && !m.funds.state.Closed? ==> NothingOwed(m) && m.funds.balance == 0)
            && (Confirms(m, t) || Finalizes(m, t) ==> NothingOwed(m) && m.funds.balance >= 0)
  {
    hide HandoffLaw;
    hide ClosureLaw;
    hide NothingOwed;
    hide MoneyStep;
    hide PrepareClosure;
    hide RecordRevocation;
    hide RecordClosureSettlement;
    hide RetireClose;
    hide CancelClosure;
    hide CompleteCancellation;
    hide CloseCloud;
    hide HandoffStep;
    match op
    case OnMoney(o) => if MoneyStep(m, o).Done? && !m.funds.state.Closed? { NeverClosesByMoney(m, o); }
    case OnHandoff(h) => HandoffSettlesFirst(m, h);
    case OnClosure(c) =>
      if c.Close? && CloseCloud(m, c.close, c.at, c.closedAt).Done?
         && CloseCloud(m, c.close, c.at, c.closedAt).state != m {
        CloseMeansSettled(m, c.close, c.at, c.closedAt);
      }
    case Elsewhere(_) =>
  }

  lemma HandoffSettlesFirst(m: State, op: HandoffOp)
    requires HandoffLaw(m)
    ensures HandoffStep(m, op).Done? ==>
              (Confirms(m, HandoffStep(m, op).state) || Finalizes(m, HandoffStep(m, op).state) ==>
                 NothingOwed(m) && m.funds.balance >= 0)
  {
    hide HandoffLaw;
    hide NothingOwed;
    hide ConfirmSnapshot;
    hide FinalizeCommit;
    hide Confirms;
    hide Finalizes;
    if HandoffStep(m, op).Done? {
      NothingNew(m);
      match op
      case Confirm(req) => if ConfirmSnapshot(m, req).state != m { ConfirmMeansSettled(m, req); }
      case Finalize(req) => if FinalizeCommit(m, req).state != m { FinalizeMeansSettled(m, req); }
      case _ => OnlyConfirmConfirms(m, op); OthersFinalizeNothing(m, op);
    }
  }

  lemma NothingNew(s: State)
    ensures !Confirms(s, s) && !Finalizes(s, s)
  { }

  lemma OthersFinalizeNothing(s: State, op: HandoffOp)
    requires !op.Finalize?
    ensures HandoffStep(s, op).Done? ==> !Finalizes(s, HandoffStep(s, op).state)
  {
    hide HandoffStep;
    OnlyFinalizeFinalizes(s, OnHandoff(op));
    FailedOrDone(s, op);
    hide Step;
  }

  lemma FailedOrDone(s: State, op: HandoffOp)
    ensures HandoffStep(s, op).Done? ==> Step(s, OnHandoff(op)) == HandoffStep(s, op).state
  {
    hide HandoffStep;
    hide MoneyStep;
    hide ClosureStep;
  }
}
