/** Responsibility periods, the exclusion between handoff and closure, and the closed account. */
module AccountClosure {
  import opened Common
  import opened Evidence
  import opened Account
  import opened AccountHandoff

  // ---------------------------------------------------------------- responsibility periods

  /** Periods abut in time with consecutive ownership versions; every period but the last has ended. */
  ghost predicate ChainLaw(periods: seq<Period>) {
    && (forall i :: 0 <= i < |periods| - 1 ==> Abut(periods[i], periods[i + 1]))
    && (forall i :: 0 <= i < |periods| && periods[i].until.Some? ==> periods[i].from < periods[i].until.value)
  }

  predicate Abut(p: Period, q: Period) {
    p.until == Some(q.from) && q.version == p.version + 1
  }

  /** At most one period is open, and it is the last one. */
  lemma OpenIsLast(periods: seq<Period>)
    requires ChainLaw(periods)
    ensures FindOpen(periods).Some? ==> FindOpen(periods).value == |periods| - 1
    ensures forall i :: 0 <= i < |periods| - 1 ==> periods[i].until.Some?
  {
    forall i | 0 <= i < |periods| - 1 ensures periods[i].until.Some? {
      assert Abut(periods[i], periods[i + 1]);
    }
  }

  /** A period is never reopened, replaced or given another owner: a step can only end it. */
  predicate OnlyEnds(p: Period, q: Period) {
    q == p || (p.until.None? && q.until.Some? && q == p.(until := q.until))
  }

  ghost predicate PeriodsGrow(a: seq<Period>, b: seq<Period>) {
    |a| <= |b| && forall i :: 0 <= i < |a| ==> OnlyEnds(a[i], b[i])
  }

  lemma FinalizeKeepsChain(s: State, req: FinalizeIn)
    requires ChainLaw(s.periods)
    ensures FinalizeCommit(s, req).Done? ==>
              && ChainLaw(FinalizeCommit(s, req).state.periods)
              && PeriodsGrow(s.periods, FinalizeCommit(s, req).state.periods)
  {
    hide Capture;
    hide FindOpen;
    OpenIsLast(s.periods);
    var r := FinalizeCommit(s, req);
    if r.Done? && r.state.periods != s.periods {
      var n := |s.periods| - 1;
      var t := r.state.periods;
      assert t[..n] == s.periods[..n] && t[n] == s.periods[n].(until := Some(req.committedAt));
      forall i | 0 <= i < |t| - 1 ensures Abut(t[i], t[i + 1]) {
        if i < n { assert Abut(s.periods[i], s.periods[i + 1]); }
      }
    }
  }

  lemma CloseKeepsChain(s: State, req: CloseIn, now: Time, closedAt: Time)
    requires ChainLaw(s.periods)
    ensures CloseCloud(s, req, now, closedAt).Done? ==>
              && ChainLaw(CloseCloud(s, req, now, closedAt).state.periods)
              && PeriodsGrow(s.periods, CloseCloud(s, req, now, closedAt).state.periods)
  {
    hide ClosureReadiness;
    OpenIsLast(s.periods);
    var r := CloseCloud(s, req, now, closedAt);
    if r.Done? && r.state.periods != s.periods {
      var t := r.state.periods;
      forall i | 0 <= i < |t| - 1 ensures Abut(t[i], t[i + 1]) {
        assert Abut(s.periods[i], s.periods[i + 1]);
      }
    }
  }

  lemma StepKeepsChain(s: State, op: Op)
    requires ChainLaw(s.periods)
    ensures ChainLaw(Step(s, op).periods) && PeriodsGrow(s.periods, Step(s, op).periods)
  {
    hide MoneyStep;
    hide PrepareHandoff;
    hide RecordSettlement;
    hide ConfirmSnapshot;
    hide AuthorizeCommit;
    hide DecideCommit;
    hide BeginAbort;
    hide CompleteAbort;
    hide FinalizeCommit;
    hide PrepareClosure;
    hide RecordRevocation;
    hide RecordClosureSettlement;
    hide RetireClose;
    hide CancelClosure;
    hide CompleteCancellation;
    hide CloseCloud;
    if op.OnHandoff? && op.handoff.Finalize? {
      FinalizeKeepsChain(s, op.handoff.finalized);
    }
    if op.OnClosure? && op.closure.Close? {
      CloseKeepsChain(s, op.closure.close, op.closure.at, op.closure.closedAt);
    }
  }

  /** In every reachable state the responsibility periods form one gapless chain. */
  lemma {:induction false} RunKeepsChain(s: State, ops: seq<Op>)
    requires Init(s)
    ensures ChainLaw(Run(s, ops).periods)
  {
    hide Step;
    if |ops| > 0 {
      RunKeepsChain(s, ops[..|ops| - 1]);
      StepKeepsChain(Run(s, ops[..|ops| - 1]), ops[|ops| - 1]);
    }
  }

  /** From any such state, through any run: no period is reopened, replaced or removed. */
  lemma {:induction false} RunOnlyEndsPeriods(s: State, ops: seq<Op>)
    requires ChainLaw(s.periods)
    ensures ChainLaw(Run(s, ops).periods) && PeriodsGrow(s.periods, Run(s, ops).periods)
  {
    hide Step;
    if |ops| > 0 {
      RunOnlyEndsPeriods(s, ops[..|ops| - 1]);
      StepKeepsChain(Run(s, ops[..|ops| - 1]), ops[|ops| - 1]);
    }
  }

  // ---------------------------------------------------------------- one closure record

  /** A recorded settlement holds the local observation it was merged with and no negative count. */
  predicate SettlementOk(r: ClosureReceipt) {
    Merge(r.evidence, Local(r.state.financial)) == r.evidence && !HasNegative(r.evidence)
  }

  /** Closing and cancelling exclude each other, a retired command never closed, and settlements are sound. */
  predicate ClosureOk(c: Closure) {
    && (forall i :: 0 <= i < |c.settlements| ==> SettlementOk(c.settlements[i]))
    && (c.completion.Some? <==> c.phase.ClosureClosed?)
    && (c.cancellation.Some? <==> c.phase.Canceling? || c.phase.ClosureCanceled?)
    && (c.completion.Some? ==> c.completion.value !in c.retired)
  }

  predicate ClosureMoves(c: Closure, c': Closure) {
    && c'.request == c.request && c'.sourcePeriod == c.sourcePeriod
    && c.retired <= c'.retired
    && (c.phase.ClosureClosed? ==> c' == c)
    && (c.phase.ClosureCanceled? ==> c'.phase.ClosureCanceled?)
    && (c.phase.Canceling? ==> c'.phase.Canceling? || c'.phase.ClosureCanceled?)
  }

  ghost predicate ClosureTouches(s: State, t: State, id: Id) {
    t.closures == s.closures ||
    (id in s.closures && id in t.closures && t.closures == s.closures[id := t.closures[id]]
     && (ClosureOk(s.closures[id]) ==> ClosureMoves(s.closures[id], t.closures[id]) && ClosureOk(t.closures[id])))
  }

  ghost predicate ClosureLaw(s: State) { forall id :: id in s.closures ==> ClosureOk(s.closures[id]) }

  ghost predicate ClosureProgress(s: State, t: State) {
    forall id :: id in s.closures ==> id in t.closures && ClosureMoves(s.closures[id], t.closures[id])
  }

  ghost predicate ClosureBirths(s: State, t: State) {
    t.closures.Keys == s.closures.Keys ||
    (!Fenced(s) && t.handoffs == s.handoffs
     && exists id :: id !in s.closures && t.closures.Keys == s.closures.Keys + {id})
  }

  lemma CloseTouches(s: State, req: CloseIn, now: Time, closedAt: Time)
    ensures CloseCloud(s, req, now, closedAt).Done? ==>
              ClosureTouches(s, CloseCloud(s, req, now, closedAt).state, req.scope.operation)
  {
    hide ClosureReadiness;
    var r := CloseCloud(s, req, now, closedAt);
    if r.Done? && r.state.closures != s.closures {
      ReadyPhase(s, s.closures[req.scope.operation], now);
    }
  }

  lemma ReadyPhase(s: State, c: Closure, now: Time)
    ensures ClosureReadiness(s, c, now).ClosureStatus? && ClosureReadiness(s, c, now).ready ==>
              c.phase.ClosurePreparing?
  {
    hide ClosureBlockers;
    hide Capture;
    hide Local;
    hide Merge;
  }

  lemma ClosureTouchesProgress(s: State, t: State, id: Id)
    requires ClosureLaw(s) && ClosureTouches(s, t, id)
    ensures ClosureProgress(s, t) && ClosureLaw(t) && ClosureBirths(s, t)
  {
    hide Fenced;
  }

  lemma PrepareClosureProgress(s: State, req: PrepareClosureIn, subjects: set<Subject>, now: Time)
    requires ClosureLaw(s)
    ensures PrepareClosure(s, req, subjects, now).Done? ==>
              && ClosureProgress(s, PrepareClosure(s, req, subjects, now).state)
              && ClosureLaw(PrepareClosure(s, req, subjects, now).state)
              && ClosureBirths(s, PrepareClosure(s, req, subjects, now).state)
  {
    hide FindOpen;
    hide Fenced;
    var r := PrepareClosure(s, req, subjects, now);
    if r.Done? && r.state.closures != s.closures {
      assert r.state.closures.Keys == s.closures.Keys + {req.scope.operation};
    }
  }

  lemma OtherClosureTouches(s: State, op: ClosureOp, id: Id)
    requires !op.PrepareClose? && !op.Close? && !op.SettleClosure?
    requires id == (match op case Revoke(sc, _, _, _) => sc.operation
                    case RetireCommand(r) => r.scope.operation case Cancel(sc, _, _, _) => sc.operation
                    case EndCancel(sc, _, _, _) => sc.operation case _ => "")
    ensures ClosureStep(s, op).Done? ==> ClosureTouches(s, ClosureStep(s, op).state, id)
  {
    hide SettlementOk;
  }

  lemma SettleClosureTouches(s: State, req: ClosureSettlementIn, now: Time)
    ensures RecordClosureSettlement(s, req, now).Done? ==>
              ClosureTouches(s, RecordClosureSettlement(s, req, now).state, req.scope.operation)
  {
    var r := RecordClosureSettlement(s, req, now);
    if r.Done? && r.state.closures != s.closures {
      var c := s.closures[req.scope.operation];
      var local := Local(CaptureClosure(s, c).financial);
      LocalIsHonest(CaptureClosure(s, c).financial);
      MergeIdempotent(req.financial, local);
      MergeKeepsBoth(req.financial, local);
      assert SettlementOk(r.state.closures[req.scope.operation].settlements[|c.settlements|]);
    }
    hide SettlementOk;
    hide Merge;
    hide Local;
    hide Capture;
  }

  lemma ClosureStepProgress(s: State, op: ClosureOp)
    requires ClosureLaw(s)
    ensures ClosureStep(s, op).Done? ==>
              var t := ClosureStep(s, op).state;
              ClosureProgress(s, t) && ClosureLaw(t) && ClosureBirths(s, t)
  {
    hide PrepareClosure;
    hide RecordRevocation;
    hide RecordClosureSettlement;
    hide RetireClose;
    hide CancelClosure;
    hide CompleteCancellation;
    hide CloseCloud;
    hide ClosureTouches;
    hide ClosureProgress;
    hide ClosureBirths;
    hide ClosureLaw;
    if ClosureStep(s, op).Done? {
      var t := ClosureStep(s, op).state;
      match op
      case PrepareClose(req, subjects, now) => PrepareClosureProgress(s, req, subjects, now);
      case Close(req, now, closedAt) =>
        CloseTouches(s, req, now, closedAt);
        ClosureTouchesProgress(s, t, req.scope.operation);
      case Revoke(sc, _, _, _) => OtherClosureTouches(s, op, sc.operation); ClosureTouchesProgress(s, t, sc.operation);
      case SettleClosure(c, now) =>
        SettleClosureTouches(s, c, now);
        ClosureTouchesProgress(s, t, c.scope.operation);
      case RetireCommand(r) =>
        OtherClosureTouches(s, op, r.scope.operation);
        ClosureTouchesProgress(s, t, r.scope.operation);
      case Cancel(sc, _, _, _) => OtherClosureTouches(s, op, sc.operation); ClosureTouchesProgress(s, t, sc.operation);
      case EndCancel(sc, _, _, _) =>
        OtherClosureTouches(s, op, sc.operation);
        ClosureTouchesProgress(s, t, sc.operation);
    }
  }

  lemma StepClosureProgress(s: State, op: Op)
    requires ClosureLaw(s)
    ensures ClosureProgress(s, Step(s, op)) && ClosureLaw(Step(s, op)) && ClosureBirths(s, Step(s, op))
  {
    hide MoneyStep;
    hide HandoffStep;
    hide ClosureStep;
    hide Fenced;
    if op.OnClosure? {
      ClosureStepProgress(s, op.closure);
    }
  }

  // ---------------------------------------------------------------- one protocol at a time

  predicate Stands(c: Closure) { !c.phase.ClosureCanceled? }

  /** At most one live handoff or standing closure, and never one of each. */
  ghost predicate ExclusiveLaw(s: State) {
    && (forall a, b :: a in s.handoffs && b in s.handoffs && Live(s.handoffs[a]) && Live(s.handoffs[b]) ==> a == b)
    && (forall a, b :: a in s.closures && b in s.closures && Stands(s.closures[a]) && Stands(s.closures[b]) ==> a == b)
    && (forall a, b :: a in s.handoffs && b in s.closures ==> !(Live(s.handoffs[a]) && Stands(s.closures[b])))
  }

  lemma Exclusion(s: State, t: State)
    requires ExclusiveLaw(s) && Progress(s, t) && Births(s, t) && ClosureProgress(s, t) && ClosureBirths(s, t)
    ensures ExclusiveLaw(t)
  {
    forall id | id in s.handoffs ensures Live(t.handoffs[id]) ==> Live(s.handoffs[id]) {
      assert Moves(s.handoffs[id], t.handoffs[id]);
    }
    forall id | id in s.closures ensures Stands(t.closures[id]) ==> Stands(s.closures[id]) {
      assert ClosureMoves(s.closures[id], t.closures[id]);
    }
    hide Moves;
    hide ClosureMoves;
    if Fenced(s) {
      assert t.handoffs.Keys == s.handoffs.Keys && t.closures.Keys == s.closures.Keys;
    } else {
      assert forall id :: id in s.handoffs ==> !Live(s.handoffs[id]);
      assert forall id :: id in s.closures ==> !Stands(s.closures[id]);
    }
  }

  /** In every reachable state at most one handoff or uncanceled closure is in progress. */
  lemma {:induction false} RunKeepsExclusion(s: State, ops: seq<Op>)
    requires Init(s)
    ensures ExclusiveLaw(Run(s, ops)) && ClosureLaw(Run(s, ops))
  {
    hide Step;
    if |ops| > 0 {
      var mid, op := Run(s, ops[..|ops| - 1]), ops[|ops| - 1];
      RunKeepsExclusion(s, ops[..|ops| - 1]);
      StepProgress(mid, op);
      StepClosureProgress(mid, op);
      Exclusion(mid, Step(mid, op));
    }
  }

  // ---------------------------------------------------------------- the closed account

  /** What a closed account looks like. */
  ghost predicate ClosedLaw(s: State) {
    s.funds.state.Closed? ==>
      && s.funds.balance == 0
      && !HasOpen(s.funds.intents)
      && (forall i :: 0 <= i < |s.periods| ==> s.periods[i].until.Some?)
      && (exists id :: id in s.closures && s.closures[id].phase.ClosureClosed?)
  }

  lemma {:induction false} NothingPending(intents: seq<Intent>, busy: set<nat>)
    requires PendingRows(IntentRows(intents), busy) == 0
    ensures !HasOpen(intents)
  {
    if |intents| > 0 {
      var n := |intents| - 1;
      assert IntentRows(intents)[..n] == IntentRows(intents[..n]);
      NothingPending(intents[..n], busy);
      forall i | 0 <= i < |intents| ensures Terminal(intents[i].state) {
        if i < n { assert intents[..n][i] == intents[i]; }
      }
    }
  }

  /** A ready closure has a zero balance, no open payment and the open period of its owner. */
  lemma ReadyMeansZero(s: State, c: Closure, now: Time)
    requires ClosureReadiness(s, c, now).ClosureStatus? && ClosureReadiness(s, c, now).ready
    ensures s.funds.balance == 0 && !HasOpen(s.funds.intents) && ClosureOwner(s, c) && s.funds.state.Active?
    ensures forall x :: x in c.tasks ==> c.tasks[x].Some?
  {
    hide ClosureBlockers;
    hide HasOpen;
    hide IntentRows;
    hide PendingRows;
    var state := CaptureClosure(s, c);
    var latest := Latest(c.settlements);
    if latest.Some? {
      NoClosureBlockersMeansZero(Merge(latest.value.evidence, Local(state.financial)));
    }
    NothingPendingIf(s);
  }

  lemma NothingPendingIf(s: State)
    ensures PendingRows(IntentRows(s.funds.intents), s.env.busy) == 0 ==> !HasOpen(s.funds.intents)
  {
    if PendingRows(IntentRows(s.funds.intents), s.env.busy) == 0 {
      NothingPending(s.funds.intents, s.env.busy);
    }
  }

  lemma CloseEstablishes(s: State, req: CloseIn, now: Time, closedAt: Time)
    requires ClosedLaw(s) && ChainLaw(s.periods)
    ensures CloseCloud(s, req, now, closedAt).Done? ==> ClosedLaw(CloseCloud(s, req, now, closedAt).state)
  {
    hide ClosureReadiness;
    hide HasOpen;
    var r := CloseCloud(s, req, now, closedAt);
    if r.Done? && r.state != s {
      var c := s.closures[req.scope.operation];
      ReadyMeansZero(s, c, now);
      OpenIsLast(s.periods);
      var t := r.state;
      forall i | 0 <= i < |t.periods| ensures t.periods[i].until.Some? {
        if i != c.sourcePeriod { assert i < |s.periods| - 1 || c.sourcePeriod < |s.periods| - 1; }
      }
      assert req.scope.operation in t.closures && t.closures[req.scope.operation].phase.ClosureClosed?;
    }
  }

  /** The books and every intent are as they were, but for a provider reference a late webhook reports. */
  ghost predicate Frozen(f: Funds, g: Funds) {
    && g == f.(policy := g.policy, intents := g.intents) && |g.intents| == |f.intents|
    && forall i :: 0 <= i < |f.intents| ==> g.intents[i] == f.intents[i].(providerRef := g.intents[i].providerRef)
  }

  lemma FrozenStaysShut(f: Funds, g: Funds)
    requires Frozen(f, g) && !HasOpen(f.intents)
    ensures !HasOpen(g.intents)
  {
    forall i | 0 <= i < |g.intents| ensures Terminal(g.intents[i].state) {
      assert Terminal(f.intents[i].state);
    }
  }

  /** None of the writers of the ledger can post to a closed account, and no intent can be born or move. */
  lemma ClosedMoneyFrozen(s: State, op: MoneyOp)
    requires ClosedLaw(s) && s.funds.state.Closed? && MoneyStep(s, op).Done?
    ensures Frozen(s.funds, MoneyStep(s, op).state.funds)
  {
    hide RunAutoTopUp;
    hide InsertEntry;
    hide PutPolicy;
    hide CreateTopUp;
    hide BindHistorical;
    hide Allocate;
    match op
    case TopUp(req) => ClosedTopUp(s, req);
    case Transition(i, _, _) => assert Terminal(s.funds.intents[i].state);
    case Reverse(req) =>
      ClosedAllocate(s.(claims := s.claims.(events := s.claims.events + [Reversal(req, None, None)])),
                     |s.claims.events|, None);
    case Resolve(k, evidence, ok) =>
      if s.claims.events[k].allocation.None? { ClosedAllocate(s, k, Some(evidence)); }
    case _ =>
  }

  lemma ClosedTopUp(s: State, req: TopUpIn)
    requires s.funds.state.Closed?
    ensures CreateTopUp(s, req).Fail?
  {
  }

  lemma ClosedAllocate(s: State, k: nat, resolution: Option<Id>)
    requires k < |s.claims.events| && s.funds.state.Closed?
    requires forall i :: 0 <= i < |s.periods| ==> s.periods[i].until.Some?
    ensures Allocate(s, k, resolution).Done? ==> Allocate(s, k, resolution).state.funds == s.funds
  {
  }

  /** No responsibility period can appear on a closed account. */
  lemma ClosedHandoffFrozen(s: State, op: HandoffOp)
    requires ClosedLaw(s) && s.funds.state.Closed? && HandoffStep(s, op).Done?
    ensures HandoffStep(s, op).state.periods == s.periods
  {
    hide PrepareHandoff;
    hide RecordSettlement;
    hide ConfirmSnapshot;
    hide AuthorizeCommit;
    hide DecideCommit;
    hide BeginAbort;
    hide CompleteAbort;
    hide Capture;
  }

  lemma StepKeepsClosed(s: State, op: Op)
    requires ClosedLaw(s) && ChainLaw(s.periods) && ClosureLaw(s)
    ensures ClosedLaw(Step(s, op))
    ensures s.funds.state.Closed? ==> Step(s, op).funds.state.Closed?
  {
    hide MoneyStep;
    hide HandoffStep;
    hide HasOpen;
    hide CloseCloud;
    hide PrepareClosure;
    hide RecordRevocation;
    hide RecordClosureSettlement;
    hide RetireClose;
    hide CancelClosure;
    hide CompleteCancellation;
    StepClosureProgress(s, op);
    match op
    case OnMoney(m) =>
      if MoneyStep(s, m).Done? { MoneyClosed(s, m); }
    case OnHandoff(h) =>
      if HandoffStep(s, h).Done? && s.funds.state.Closed? { ClosedHandoffFrozen(s, h); }
    case OnClosure(c) =>
      if c.Close? { CloseEstablishes(s, c.close, c.at, c.closedAt); CloseStaysClosed(s, c); }
      else { StillClosed(s, Step(s, op)); }
    case Elsewhere(_) =>
  }

  lemma StillClosed(s: State, t: State)
    requires ClosedLaw(s) && ClosureProgress(s, t) && t.periods == s.periods
    requires t.funds == s.funds.(policy := t.funds.policy)
    ensures ClosedLaw(t)
  {
    hide HasOpen;
    if s.funds.state.Closed? {
      var id :| id in s.closures && s.closures[id].phase.ClosureClosed?;
      assert ClosureMoves(s.closures[id], t.closures[id]);
    }
  }

  lemma CloseStaysClosed(s: State, op: ClosureOp)
    requires op.Close?
    ensures ClosureStep(s, op).Done? && s.funds.state.Closed? ==> ClosureStep(s, op).state.funds.state.Closed?
  {
    hide ClosureReadiness;
  }

  lemma MoneyClosed(s: State, op: MoneyOp)
    requires ClosedLaw(s) && MoneyStep(s, op).Done?
    ensures ClosedLaw(MoneyStep(s, op).state)
    ensures s.funds.state.Closed? ==> MoneyStep(s, op).state.funds.state.Closed?
  {
    hide HasOpen;
    if s.funds.state.Closed? {
      ClosedMoneyFrozen(s, op);
      FrozenStaysShut(s.funds, MoneyStep(s, op).state.funds);
      hide MoneyStep;
    } else {
      NeverClosesByMoney(s, op);
    }
  }

  lemma NeverClosesByMoney(s: State, op: MoneyOp)
    requires !s.funds.state.Closed? && MoneyStep(s, op).Done?
    ensures !MoneyStep(s, op).state.funds.state.Closed?
  {
    hide RunAutoTopUp;
    hide PutPolicy;
    hide CreateTopUp;
    hide BeginCharge;
    hide NoteReference;
    hide DisablePolicy;
    hide BindHistorical;
    hide ClassifyReversal;
    hide HasKey;
  }

  lemma {:induction false} RunKeepsClosed(s: State, ops: seq<Op>)
    requires Init(s)
    ensures ClosedLaw(Run(s, ops))
  {
    hide Step;
    if |ops| > 0 {
      var mid := Run(s, ops[..|ops| - 1]);
      RunKeepsClosed(s, ops[..|ops| - 1]);
      RunKeepsChain(s, ops[..|ops| - 1]);
      RunKeepsExclusion(s, ops[..|ops| - 1]);
      StepKeepsClosed(mid, ops[|ops| - 1]);
    }
  }

  /** Once a run has closed the account, the balance is zero and stays zero in every continuation. */
  lemma {:induction false} ClosedStaysZero(s: State, before: seq<Op>, after: seq<Op>)
    requires Init(s) && Run(s, before).funds.state.Closed?
    ensures var t := Run(s, before + after);
            t.funds.state.Closed? && t.funds.balance == 0 && !HasOpen(t.funds.intents)
  {
    hide Step;
    hide HasOpen;
    RunKeepsClosed(s, before + after);
    if |after| > 0 {
      var n := |after| - 1;
      assert (before + after)[..|before + after| - 1] == before + after[..n];
      ClosedStaysZero(s, before, after[..n]);
      var mid := Run(s, before + after[..n]);
      RunKeepsClosed(s, before + after[..n]);
      RunKeepsChain(s, before + after[..n]);
      RunKeepsExclusion(s, before + after[..n]);
      StepKeepsClosed(mid, after[n]);
    } else {
      assert before + after == before;
    }
  }

  // ---------------------------------------------------------------- evidence is never lost

  ghost predicate ReceiptOf(h: Handoff, v: nat, e: Financial) { v in h.receipts && h.receipts[v].evidence == e }

  ghost predicate SettlementOf(c: Closure, i: nat, e: Financial) {
    i < |c.settlements| && c.settlements[i].evidence == e
  }

  /** Evidence a status may merge: that of any receipt, of any closure settlement, or the empty one. */
  ghost predicate OnFile(s: State, e: Financial) {
    || e == NO_EVIDENCE
    || (exists id, v: nat :: id in s.handoffs && ReceiptOf(s.handoffs[id], v, e))
    || (exists id, i: nat :: id in s.closures && SettlementOf(s.closures[id], i, e))
  }

  /** What recording accepts can be merged without loss. */
  lemma RecordingOnlyAdds(s: State, req: SettlementIn, closing: ClosureSettlementIn, now: Time)
    ensures RecordSettlement(s, req).Done? ==>
              KeepsExternal(req.financial, Local(Capture(s))) && KeepsLocal(req.financial, Local(Capture(s)))
    ensures RecordClosureSettlement(s, closing, now).Done? ==>
              KeepsExternal(closing.financial, Local(Capture(s))) && KeepsLocal(closing.financial, Local(Capture(s)))
  {
    hide Merge;
    hide Capture;
    hide Locate;
    hide LocateClosure;
    hide SettlementStatus;
    LocalIsHonest(Capture(s));
    hide Local;
    if !HasNegative(req.financial) { MergeKeepsBoth(req.financial, Local(Capture(s))); }
    if !HasNegative(closing.financial) { MergeKeepsBoth(closing.financial, Local(Capture(s))); }
  }

  /** In every reachable state, merging the live local evidence into any evidence on file keeps every blocker of
      that evidence except about the balance, and hides no local one. */
  lemma RunMergesOnlyAdd(s: State, ops: seq<Op>, e: Financial)
    requires Init(s) && OnFile(Run(s, ops), e)
    ensures KeepsExternal(e, Local(Capture(Run(s, ops)))) && KeepsLocal(e, Local(Capture(Run(s, ops))))
  {
    RunKeepsHandoffs(s, ops);
    RunKeepsExclusion(s, ops);
    hide Run;
    var t := Run(s, ops);
    assert !HasNegative(e) by { FiledIsSound(t, e); }
    LocalIsHonest(Capture(t));
    MergeKeepsBoth(e, Local(Capture(t)));
    hide KeepsExternal;
    hide KeepsLocal;
  }

  lemma FiledIsSound(t: State, e: Financial)
    requires HandoffLaw(t) && ClosureLaw(t) && OnFile(t, e)
    ensures !HasNegative(e)
  {
    hide GrantOk;
    hide PhaseOk;
    if exists id, v: nat :: id in t.handoffs && ReceiptOf(t.handoffs[id], v, e) {
      var id, v: nat :| id in t.handoffs && ReceiptOf(t.handoffs[id], v, e);
      assert HandoffOk(t.handoffs[id]);
      assert Absorbed(t.handoffs[id].receipts[v]);
    } else if exists id, i: nat :: id in t.closures && SettlementOf(t.closures[id], i, e) {
      var id, i: nat :| id in t.closures && SettlementOf(t.closures[id], i, e);
      assert ClosureOk(t.closures[id]);
      assert SettlementOk(t.closures[id].settlements[i]);
    }
  }

  /** The status lists every blocker that the evidence of its version, or the live account, has. */
  ghost predicate ShowsBlockers(s: State, h: Handoff) {
    var st := SettlementStatus(s, h);
    && st.Status?
    && (forall b :: b in TransferBlockers(Local(Capture(s))) && !AboutCompleteness(b) ==> b in st.blockers)
    && (h.version in h.receipts ==>
          forall b :: b in TransferBlockers(h.receipts[h.version].evidence) && !AboutBalance(b) ==> b in st.blockers)
  }

  lemma StatusShowsBlockers(s: State, h: Handoff)
    requires HandoffOk(h) && (h.phase.Preparing? || h.phase.Prepared?)
    ensures ShowsBlockers(s, h)
  {
    var e := if h.version in h.receipts then h.receipts[h.version].evidence else NO_EVIDENCE;
    assert !HasNegative(e) by { assert h.version in h.receipts ==> Absorbed(h.receipts[h.version]); }
    StatusHasSnapshot(s, h);
    LocalIsHonest(Capture(s));
    MergeKeepsBoth(e, Local(Capture(s)));
    forall b { StatusLists(s, h, e, b); }
    hide SettlementStatus;
    hide TransferBlockers;
    hide Merge;
    hide Local;
    hide Capture;
    hide HandoffOk;
  }

  /** So it does for every handoff that is being prepared, in every reachable state. */
  lemma RunStatusShowsBlockers(s: State, ops: seq<Op>, id: Id)
    requires Init(s) && id in Run(s, ops).handoffs
    requires Run(s, ops).handoffs[id].phase.Preparing? || Run(s, ops).handoffs[id].phase.Prepared?
    ensures ShowsBlockers(Run(s, ops), Run(s, ops).handoffs[id])
  {
    hide Step;
    hide ShowsBlockers;
    RunKeepsHandoffs(s, ops);
    hide Run;
    assert HandoffOk(Run(s, ops).handoffs[id]);
    StatusShowsBlockers(Run(s, ops), Run(s, ops).handoffs[id]);
  }

  lemma StatusLists(s: State, h: Handoff, e: Financial, b: Blocker)
    requires h.phase.Preparing? || h.phase.Prepared?
    requires e == if h.version in h.receipts then h.receipts[h.version].evidence else NO_EVIDENCE
    ensures SettlementStatus(s, h).Status? && b in TransferBlockers(Merge(e, Local(Capture(s)))) ==>
              b in SettlementStatus(s, h).blockers
  {
    hide TransferBlockers;
    hide Merge;
    hide Local;
    hide Capture;
  }
}
