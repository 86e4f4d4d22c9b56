/** Ownership handoff over every run: one outcome, and an opening balance both sides confirmed. */
module AccountHandoff {
  import opened Common
  import opened Evidence
  import opened Account

  // ---------------------------------------------------------------- one handoff record

  /** Evidence that already contains the local observation it was merged with, and no negative count. */
  ghost predicate Absorbed(r: Receipt) {
    Merge(r.evidence, Local(r.state)) == r.evidence && !HasNegative(r.evidence)
  }

  predicate Clean(r: Receipt) { TransferBlockers(r.evidence) == [] && !r.state.state.Closed? }

  ghost predicate EvidenceOk(h: Handoff) {
    && h.version >= 1
    && (forall v :: v in h.receipts ==> 2 <= v <= h.version && Absorbed(h.receipts[v]))
    && (forall v :: v in h.snapshots <==> v in h.receipts && Clean(h.receipts[v]))
    && (forall v :: v in h.snapshots ==> h.snapshots[v] == h.receipts[v].state.balance >= 0)
    && (forall c :: c in h.confirmed ==>
          c.0 in h.snapshots && h.confirmed[c] == h.snapshots[c.0] && c.1 in {h.request.source, h.request.target})
  }

  /** Source and target confirmed one and the same snapshot, of this nonnegative balance. */
  predicate Agreed(h: Handoff, version: int, balance: int) {
    && version >= 2 && balance >= 0
    && version in h.snapshots && h.snapshots[version] == balance
    && (version, h.request.source) in h.confirmed && h.confirmed[(version, h.request.source)] == balance
    && (version, h.request.target) in h.confirmed && h.confirmed[(version, h.request.target)] == balance
  }

  predicate GrantOk(h: Handoff) {
    h.grant.Some? ==>
      var g := h.grant.value;
      && g.request.version >= 2 && g.request.version in h.receipts
      && g.state == h.receipts[g.request.version].state
      && Agreed(h, g.request.version, g.state.balance)
  }

  /** Which protocol records exist in which phase. */
  predicate PhaseOk(h: Handoff) {
    && (h.decision.Some? <==> h.phase.Finalizing? || h.phase.Finalized?)
    && (h.finalization.Some? <==> h.phase.Finalized?)
    && (h.finalization.Some? ==> h.finalization == h.decision)
    && (h.cancellation.Some? <==> h.phase.AbortPending? || h.phase.Aborted?)
    && (h.release.Some? <==> h.phase.Aborted?)
    && (h.phase.CommitAuthorized? || h.phase.Finalizing? || h.phase.Finalized? ==> h.grant.Some?)
    && (h.phase.Preparing? || h.phase.Prepared? ==> h.grant.None?)
  }

  /** A decision is the target's, made under the authorization that was granted, at or after the cutoff, for the next
      ownership version; a cancellation after a grant names that grant. */
  predicate DecisionOk(h: Handoff) {
    && (h.decision.Some? ==>
          var d := h.decision.value;
          && h.grant.Some? && d.authorization == h.grant.value.request.authorization && d.owner == h.request.target
          && d.committedAt >= h.request.cutoff && d.ownershipVersion == h.request.ownershipVersion + 1)
    && (h.cancellation.Some? && h.grant.Some? ==>
          h.cancellation.value.authorization == Some(h.grant.value.request.authorization))
  }

  ghost predicate HandoffOk(h: Handoff) { EvidenceOk(h) && GrantOk(h) && PhaseOk(h) && DecisionOk(h) }

  predicate PhaseMoves(p: Phase, q: Phase) {
    match p
    case Preparing => !q.Finalizing? && !q.Finalized? && !q.Aborted?
    case Prepared => !q.Finalizing? && !q.Finalized? && !q.Aborted?
    case CommitAuthorized => q.CommitAuthorized? || q.Finalizing? || q.AbortPending?
    case Finalizing => q.Finalizing? || q.Finalized?
    case Finalized => q.Finalized?
    case AbortPending => q.AbortPending? || q.Aborted?
    case Aborted => q.Aborted?
  }

  /** How one step may change a handoff: protocol records are written once, the phase follows the graph,
      and a finished handoff is frozen. */
  predicate Moves(h: Handoff, h': Handoff) {
    && h'.request == h.request && h'.sourcePeriod == h.sourcePeriod
    && (h.grant.Some? ==> h'.grant == h.grant)
    && (h.decision.Some? ==> h'.decision == h.decision)
    && (h.cancellation.Some? ==> h'.cancellation == h.cancellation)
    && PhaseMoves(h.phase, h'.phase)
    && (!Live(h) ==> h' == h)
  }

  /** What a handoff step other than preparation does: it rewrites at most the one record it names. */
  ghost predicate Touches(s: State, t: State, id: Id) {
    t.handoffs == s.handoffs ||
    (id in s.handoffs && id in t.handoffs && t.handoffs == s.handoffs[id := t.handoffs[id]]
     && Moves(s.handoffs[id], t.handoffs[id]) && (HandoffOk(s.handoffs[id]) ==> HandoffOk(t.handoffs[id])))
  }

  /** Later protocol records do not disturb the evidence. */
  lemma Carries(h: Handoff, h': Handoff)
    requires EvidenceOk(h) && GrantOk(h)
    requires h'.request == h.request && h'.receipts == h.receipts && h'.snapshots == h.snapshots
    requires h'.confirmed == h.confirmed && h'.version >= h.version
    ensures EvidenceOk(h') && (h'.grant == h.grant ==> GrantOk(h'))
  {
    hide Absorbed;
    hide Clean;
  }

  /** The record after a settlement whose receipt is r. */
  ghost function Received(h: Handoff, r: Receipt): Handoff {
    h.(version := h.version + 1, phase := if Clean(r) then Prepared else Preparing,
       receipts := h.receipts[h.version + 1 := r],
       snapshots := if Clean(r) then h.snapshots[h.version + 1 := r.state.balance] else h.snapshots)
  }

  lemma ReceivedKeepsEvidence(h: Handoff, r: Receipt)
    requires EvidenceOk(h) && Absorbed(r) && (Clean(r) ==> r.state.balance >= 0)
    ensures EvidenceOk(Received(h, r))
  {
    hide Absorbed;
    hide Clean;
    var h', v := Received(h, r), h.version + 1;
    assert v !in h.receipts && v !in h.snapshots;
    forall w ensures w in h'.snapshots <==> w in h'.receipts && Clean(h'.receipts[w]) {
      if w != v { assert w in h.snapshots <==> w in h.receipts && Clean(h.receipts[w]); }
    }
    forall c | c in h'.confirmed ensures c.0 in h'.snapshots && h'.confirmed[c] == h'.snapshots[c.0] {
      assert c in h.confirmed && c.0 in h.snapshots;
    }
  }

  lemma SettleKeepsOk(h: Handoff, now: Captured, financial: Financial)
    requires HandoffOk(h) && (h.phase.Preparing? || h.phase.Prepared?) && !HasNegative(financial)
    ensures HandoffOk(Settle(h, now, financial))
  {
    var r := SettledReceipt(h, now, financial);
    ReceivedKeepsEvidence(h, r);
    hide Settle;
    hide EvidenceOk;
    hide Clean;
    hide Absorbed;
  }

  lemma LocalIsHonest(c: Captured)
    ensures Honest(Local(c))
  {
    hide PendingRows;
  }

  lemma SettledReceipt(h: Handoff, now: Captured, financial: Financial) returns (r: Receipt)
    requires !HasNegative(financial)
    ensures r.state == now && Absorbed(r) && (Clean(r) ==> now.balance >= 0)
    ensures Settle(h, now, financial) == Received(h, r)
  {
    r := Receipt(now, Merge(financial, Local(now)));
    MergeIdempotent(financial, Local(now));
    NoBlockersMeansClear(r.evidence);
    LocalIsHonest(now);
    MergeKeepsBoth(financial, Local(now));
    hide TransferBlockers;
  }

  lemma RecordTouches(s: State, req: SettlementIn)
    ensures RecordSettlement(s, req).Done? ==> Touches(s, RecordSettlement(s, req).state, req.scope.operation)
  {
    hide SettlementStatus;
    hide Merge;
    hide TransferBlockers;
    hide Capture;
    var r := RecordSettlement(s, req);
    if r.Done? && r.state.handoffs != s.handoffs {
      var h := s.handoffs[req.scope.operation];
      if HandoffOk(h) { SettleKeepsOk(h, Capture(s), req.financial); }
    }
  }

  /** A status without blockers always has the snapshot of the current version, so the missing-row exit
      of the status query is never taken. */
  lemma StatusHasSnapshot(s: State, h: Handoff)
    requires HandoffOk(h)
    ensures SettlementStatus(s, h).Status?
    ensures var st := SettlementStatus(s, h);
            (st.blockers == [] <==> st.snapshot.Some?)
            && (st.snapshot.Some? ==>
                  && (h.phase.Preparing? || h.phase.Prepared?)
                  && h.version in h.receipts && h.version in h.snapshots
                  && h.receipts[h.version].state == Capture(s)
                  && st.snapshot.value.version == h.version && st.snapshot.value.balance == h.snapshots[h.version]
                  && (st.snapshot.value.sourceConfirmed <==> (h.version, h.request.source) in h.confirmed)
                  && (st.snapshot.value.targetConfirmed <==> (h.version, h.request.target) in h.confirmed))
  {
    hide TransferBlockers;
    hide Merge;
    hide Local;
    if h.version in h.receipts {
      assert Absorbed(h.receipts[h.version]);
    }
  }

  lemma ConfirmTouches(s: State, req: ConfirmIn)
    ensures ConfirmSnapshot(s, req).Done? ==> Touches(s, ConfirmSnapshot(s, req).state, req.scope.operation)
  {
    hide SettlementStatus;
    hide Capture;
    hide OpenFor;
    hide HandoffOk;
    var r := ConfirmSnapshot(s, req);
    if r.Done? && r.state.handoffs != s.handoffs {
      var h := s.handoffs[req.scope.operation];
      StatusShape(s, h);
      if HandoffOk(h) {
        StatusHasSnapshot(s, h);
        ConfirmKeepsOk(h, req.user, req.balance);
      }
    }
  }

  lemma StatusShape(s: State, h: Handoff)
    ensures SettlementStatus(s, h).Status? && SettlementStatus(s, h).snapshot.Some? ==>
              h.phase.Preparing? || h.phase.Prepared?
  {
    hide TransferBlockers;
    hide Merge;
    hide Capture;
  }

  lemma ConfirmKeepsOk(h: Handoff, user: Id, balance: int)
    requires HandoffOk(h) && user in {h.request.source, h.request.target}
    requires h.version in h.snapshots && balance == h.snapshots[h.version] && (h.version, user) !in h.confirmed
    ensures HandoffOk(h.(confirmed := h.confirmed[(h.version, user) := balance]))
  {
    hide Absorbed;
    hide Clean;
  }

  lemma BothConfirmed(h: Handoff)
    requires EvidenceOk(h) && h.version in h.snapshots
    requires (h.version, h.request.source) in h.confirmed && (h.version, h.request.target) in h.confirmed
    ensures h.version in h.receipts && Agreed(h, h.version, h.receipts[h.version].state.balance)
  {
  }

  lemma AuthorizeTouches(s: State, req: AuthorizeIn)
    ensures AuthorizeCommit(s, req).Done? ==> Touches(s, AuthorizeCommit(s, req).state, req.scope.operation)
  {
    hide SettlementStatus;
    hide Capture;
    hide EvidenceOk;
    hide FindOpen;
    var r := AuthorizeCommit(s, req);
    if r.Done? && r.state.handoffs != s.handoffs {
      var h := s.handoffs[req.scope.operation];
      StatusShape(s, h);
      if HandoffOk(h) {
        StatusHasSnapshot(s, h);
        BothConfirmed(h);
        Carries(h, r.state.handoffs[req.scope.operation]);
      }
    }
  }

  lemma DecideTouches(s: State, req: FinalizeIn)
    ensures DecideCommit(s, req).Done? ==> Touches(s, DecideCommit(s, req).state, req.scope.operation)
  {
    hide EvidenceOk;
    hide GrantOk;
    hide Capture;
    hide FindOpen;
    var r := DecideCommit(s, req);
    if r.Done? && r.state.handoffs != s.handoffs && HandoffOk(s.handoffs[req.scope.operation]) {
      Carries(s.handoffs[req.scope.operation], r.state.handoffs[req.scope.operation]);
    }
  }

  lemma FinalizeTouches(s: State, req: FinalizeIn)
    ensures FinalizeCommit(s, req).Done? ==> Touches(s, FinalizeCommit(s, req).state, req.scope.operation)
  {
    hide EvidenceOk;
    hide GrantOk;
    hide Capture;
    hide FindOpen;
    var r := FinalizeCommit(s, req);
    if r.Done? && r.state.handoffs != s.handoffs && HandoffOk(s.handoffs[req.scope.operation]) {
      Carries(s.handoffs[req.scope.operation], r.state.handoffs[req.scope.operation]);
    }
  }

  lemma AbortTouches(s: State, req: AbortIn)
    ensures BeginAbort(s, req).Done? ==> Touches(s, BeginAbort(s, req).state, req.scope.operation)
  {
    hide EvidenceOk;
    hide GrantOk;
    hide Capture;
    hide FindOpen;
    var r := BeginAbort(s, req);
    if r.Done? && r.state.handoffs != s.handoffs && HandoffOk(s.handoffs[req.scope.operation]) {
      Carries(s.handoffs[req.scope.operation], r.state.handoffs[req.scope.operation]);
    }
  }

  lemma EndAbortTouches(s: State, req: CompleteAbortIn)
    ensures CompleteAbort(s, req).Done? ==> Touches(s, CompleteAbort(s, req).state, req.scope.operation)
  {
    hide EvidenceOk;
    hide GrantOk;
    hide Capture;
    hide FindOpen;
    var r := CompleteAbort(s, req);
    if r.Done? && r.state.handoffs != s.handoffs && HandoffOk(s.handoffs[req.scope.operation]) {
      Carries(s.handoffs[req.scope.operation], r.state.handoffs[req.scope.operation]);
    }
  }

  // ---------------------------------------------------------------- every handoff, every run

  ghost predicate HandoffLaw(s: State) {
    forall id :: id in s.handoffs ==> HandoffOk(s.handoffs[id])
  }

  /** Between two states of a run: handoffs are kept and move along the graph. */
  ghost predicate Progress(s: State, t: State) {
    forall id :: id in s.handoffs ==> id in t.handoffs && Moves(s.handoffs[id], t.handoffs[id])
  }

  /** A step adds no handoff, or adds one while no fence stands. */
  ghost predicate Births(s: State, t: State) {
    t.handoffs.Keys == s.handoffs.Keys ||
    (!Fenced(s) && t.closures == s.closures
     && exists id :: id !in s.handoffs && t.handoffs.Keys == s.handoffs.Keys + {id})
  }

  lemma MovesReflexive(h: Handoff)
    ensures Moves(h, h)
  {
  }

  lemma TouchesProgress(s: State, t: State, id: Id)
    requires Touches(s, t, id)
    ensures Progress(s, t) && Births(s, t)
    ensures HandoffLaw(s) ==> HandoffLaw(t)
  {
    hide Moves;
    hide Fenced;
    hide HandoffOk;
    forall k | k in s.handoffs ensures k in t.handoffs && Moves(s.handoffs[k], t.handoffs[k]) {
      MovesReflexive(s.handoffs[k]);
    }
  }

  lemma PrepareProgress(s: State, req: PrepareIn)
    ensures PrepareHandoff(s, req).Done? ==>
              && Progress(s, PrepareHandoff(s, req).state) && Births(s, PrepareHandoff(s, req).state)
              && (HandoffLaw(s) ==> HandoffLaw(PrepareHandoff(s, req).state))
  {
    hide FindOpen;
    hide Fenced;
    forall h { MovesReflexive(h); }
    hide Moves;
    var r := PrepareHandoff(s, req);
    if r.Done? && r.state.handoffs != s.handoffs {
      assert r.state.handoffs.Keys == s.handoffs.Keys + {req.operation};
    }
  }

  lemma StepProgress(s: State, op: Op)
    ensures Progress(s, Step(s, op)) && Births(s, Step(s, op))
    ensures HandoffLaw(s) ==> HandoffLaw(Step(s, op))
  {
    hide MoneyStep;
    hide ClosureStep;
    hide PrepareHandoff;
    hide RecordSettlement;
    hide ConfirmSnapshot;
    hide AuthorizeCommit;
    hide DecideCommit;
    hide FinalizeCommit;
    hide BeginAbort;
    hide CompleteAbort;
    hide InitializeResponsibility;
    hide Progress;
    hide Births;
    hide HandoffLaw;
    hide Touches;
    var t := Step(s, op);
    SameHandoffs(s, t);
    if op.OnHandoff? && HandoffStep(s, op.handoff).Done? {
      match op.handoff
      case Prepare(req) => PrepareProgress(s, req);
      case SettleHandoff(req) => RecordTouches(s, req); TouchesProgress(s, t, req.scope.operation);
      case Confirm(req) => ConfirmTouches(s, req); TouchesProgress(s, t, req.scope.operation);
      case Authorize(req) => AuthorizeTouches(s, req); TouchesProgress(s, t, req.scope.operation);
      case Decide(req) => DecideTouches(s, req); TouchesProgress(s, t, req.scope.operation);
      case Finalize(req) => FinalizeTouches(s, req); TouchesProgress(s, t, req.scope.operation);
      case Abort(req) => AbortTouches(s, req); TouchesProgress(s, t, req.scope.operation);
      case EndAbort(req) => EndAbortTouches(s, req); TouchesProgress(s, t, req.scope.operation);
      case Initialize(req) =>
      case Recreate(_) =>
    }
  }

  lemma SameHandoffs(s: State, t: State)
    ensures t.handoffs == s.handoffs ==> Progress(s, t) && Births(s, t) && (HandoffLaw(s) ==> HandoffLaw(t))
  {
  }

  lemma {:induction false} RunKeepsHandoffs(s: State, ops: seq<Op>)
    requires Init(s)
    ensures HandoffLaw(Run(s, ops))
  {
    hide Step;
    if |ops| > 0 {
      RunKeepsHandoffs(s, ops[..|ops| - 1]);
      StepProgress(Run(s, ops[..|ops| - 1]), ops[|ops| - 1]);
    }
  }

  /** In no reachable state does a handoff have both a committed decision and a cancellation. */
  lemma OneOutcome(s: State, ops: seq<Op>, id: Id)
    requires Init(s) && id in Run(s, ops).handoffs
    ensures var h := Run(s, ops).handoffs[id];
            !(h.decision.Some? && h.cancellation.Some?)
            && (h.decision.Some? <==> h.phase.Finalizing? || h.phase.Finalized?)
            && (h.cancellation.Some? <==> h.phase.AbortPending? || h.phase.Aborted?)
  {
    hide Step;
    hide Run;
    RunKeepsHandoffs(s, ops);
    assert HandoffOk(Run(s, ops).handoffs[id]);
  }

  /** From any state that satisfies the law: a recorded decision or cancellation is permanent, and the
      phase stays on its side of the fork for every continuation, including crash and retry of the
      second finalize transaction. */
  lemma {:induction false} OutcomeIsPermanent(s: State, ops: seq<Op>, id: Id)
    requires HandoffLaw(s) && id in s.handoffs
    ensures HandoffLaw(Run(s, ops)) && id in Run(s, ops).handoffs
    ensures var h, t := s.handoffs[id], Run(s, ops).handoffs[id];
            && (h.decision.Some? ==> t.decision == h.decision && (t.phase.Finalizing? || t.phase.Finalized?))
            && (h.cancellation.Some? ==>
                  t.cancellation == h.cancellation && (t.phase.AbortPending? || t.phase.Aborted?))
            && (!Live(h) ==> t == h)
  {
    hide Step;
    if |ops| > 0 {
      OutcomeIsPermanent(s, ops[..|ops| - 1], id);
      var mid := Run(s, ops[..|ops| - 1]);
      StepProgress(mid, ops[|ops| - 1]);
      assert Moves(mid.handoffs[id], Run(s, ops).handoffs[id]);
      assert HandoffOk(Run(s, ops).handoffs[id]);
    }
  }

  // ---------------------------------------------------------------- the opening balance

  /** The step that finalizes: the successor's opening balance is the account balance of that moment and
      the amount both participants confirmed on the granted snapshot. */
  lemma FinalizeAgrees(s: State, req: FinalizeIn, t: State)
    requires HandoffLaw(s) && req.scope.operation in s.handoffs && s.handoffs[req.scope.operation].finalization.None?
    requires FinalizeCommit(s, req) == Done(t)
    ensures req.scope.operation in t.handoffs && t.handoffs[req.scope.operation].phase.Finalized?
    ensures |t.periods| == |s.periods| + 1
    ensures t.periods[|s.periods|].opening == Some((req.scope.operation, s.funds.balance))
    ensures t.periods[|s.periods|].from == req.committedAt && t.periods[|s.periods|].evidence == req.commit
    ensures t.periods[|s.periods|].version == t.handoffs[req.scope.operation].request.ownershipVersion + 1
    ensures t.periods[|s.periods|].owner == t.handoffs[req.scope.operation].request.target
    ensures t.funds.balance == s.funds.balance
    ensures var h := t.handoffs[req.scope.operation];
            h.grant.Some? && Agreed(h, h.grant.value.request.version, s.funds.balance)
    ensures forall i :: 0 <= i < |s.periods| ==> t.periods[i].opening == s.periods[i].opening
  {
    hide EvidenceOk;
    hide FindOpen;
    assert HandoffOk(s.handoffs[req.scope.operation]);
  }

  /** Every opening balance on record was agreed. */
  ghost predicate OpeningLaw(s: State) {
    forall i :: 0 <= i < |s.periods| && s.periods[i].opening.Some? ==> OpeningOk(s, s.periods[i].opening.value)
  }

  predicate OpeningOk(s: State, opening: (Id, int)) {
    && opening.0 in s.handoffs && s.handoffs[opening.0].phase.Finalized? && s.handoffs[opening.0].grant.Some?
    && Agreed(s.handoffs[opening.0], s.handoffs[opening.0].grant.value.request.version, opening.1)
  }

  /** Steps other than finalization add no opening record and keep the existing ones. */
  lemma OpeningsKept(s: State, op: Op)
    requires !(op.OnHandoff? && op.handoff.Finalize?)
    ensures var t := Step(s, op);
            && |s.periods| <= |t.periods|
            && (forall i :: 0 <= i < |s.periods| ==> t.periods[i].opening == s.periods[i].opening)
            && (forall i :: |s.periods| <= i < |t.periods| ==> t.periods[i].opening.None?)
  {
    hide MoneyStep;
    hide PrepareHandoff;
    hide RecordSettlement;
    hide ConfirmSnapshot;
    hide AuthorizeCommit;
    hide DecideCommit;
    hide BeginAbort;
    hide CompleteAbort;
    hide PrepareClosure;
    hide RecordRevocation;
    hide RecordClosureSettlement;
    hide RetireClose;
    hide CancelClosure;
    hide CompleteCancellation;
    hide ClosureReadiness;
  }

  lemma FrozenOpening(s: State, t: State, opening: (Id, int))
    requires Progress(s, t) && OpeningOk(s, opening)
    ensures OpeningOk(t, opening)
  {
    hide Agreed;
    assert Moves(s.handoffs[opening.0], t.handoffs[opening.0]);
  }

  lemma StepKeepsOpenings(s: State, op: Op)
    requires HandoffLaw(s) && OpeningLaw(s)
    ensures OpeningLaw(Step(s, op))
  {
    hide OpeningOk;
    hide HandoffStep;
    hide MoneyStep;
    hide ClosureStep;
    hide FinalizeCommit;
    var t := Step(s, op);
    StepProgress(s, op);
    hide Progress;
    hide HandoffLaw;
    if op.OnHandoff? && op.handoff.Finalize? {
      FinalizeStep(s, op.handoff.finalized);
      FinalizeKeepsOpenings(s, op.handoff.finalized);
    } else {
      OpeningsKept(s, op);
      hide Step;
      forall i | 0 <= i < |t.periods| && t.periods[i].opening.Some? ensures OpeningOk(t, t.periods[i].opening.value) {
        FrozenOpening(s, t, s.periods[i].opening.value);
      }
    }
  }

  lemma FinalizeStep(s: State, req: FinalizeIn)
    ensures Step(s, OnHandoff(Finalize(req))) == if FinalizeCommit(s, req).Done? then FinalizeCommit(s, req).state
                                                 else s
  {
    hide FinalizeCommit;
  }

  lemma FinalizeKeepsOpenings(s: State, req: FinalizeIn)
    requires HandoffLaw(s) && OpeningLaw(s)
    ensures FinalizeCommit(s, req).Done? ==> OpeningLaw(FinalizeCommit(s, req).state)
  {
    hide EvidenceOk;
    hide OpeningOk;
    hide FindOpen;
    hide Capture;
    var r := FinalizeCommit(s, req);
    if r.Done? && s.handoffs[req.scope.operation].finalization.None? {
      hide FinalizeCommit;
      var t := r.state;
      FinalizeAgrees(s, req, t);
      FinalizeTouches(s, req);
      TouchesProgress(s, t, req.scope.operation);
      forall i | 0 <= i < |t.periods| && t.periods[i].opening.Some? ensures OpeningOk(t, t.periods[i].opening.value) {
        if i < |s.periods| {
          FrozenOpening(s, t, s.periods[i].opening.value);
        } else {
          NewOpening(t, req.scope.operation, s.funds.balance);
        }
      }
    }
  }

  lemma NewOpening(t: State, id: Id, balance: int)
    requires id in t.handoffs && t.handoffs[id].phase.Finalized? && t.handoffs[id].grant.Some?
    requires Agreed(t.handoffs[id], t.handoffs[id].grant.value.request.version, balance)
    ensures OpeningOk(t, (id, balance))
  {
  }

  /** In every reachable state, every opening balance was confirmed by both sides on one snapshot version
      of a finalized handoff, and is not negative. */
  lemma {:induction false} RunKeepsOpenings(s: State, ops: seq<Op>)
    requires Init(s)
    ensures OpeningLaw(Run(s, ops))
  {
    hide Step;
    if |ops| > 0 {
      RunKeepsOpenings(s, ops[..|ops| - 1]);
      RunKeepsHandoffs(s, ops[..|ops| - 1]);
      StepKeepsOpenings(Run(s, ops[..|ops| - 1]), ops[|ops| - 1]);
    }
  }

  // ---------------------------------------------------------------- and every finalized handoff opened one period

  predicate Opens(p: Period, id: Id) { p.opening.Some? && p.opening.value.0 == id }

  predicate Opened(periods: seq<Period>, id: Id) { exists i :: 0 <= i < |periods| && Opens(periods[i], id) }

  /** Every finalized handoff opened a period, and no two periods were opened by the same handoff. */
  ghost predicate FinalizedOpens(s: State) {
    && (forall id :: id in s.handoffs && s.handoffs[id].phase.Finalized? ==> Opened(s.periods, id))
    && (forall i, j, id :: 0 <= i < j < |s.periods| ==> !(Opens(s.periods[i], id) && Opens(s.periods[j], id)))
  }

  /** Finalized in t means finalized in s already. */
  ghost predicate NoneFinalized(s: State, t: State) {
    forall id :: id in t.handoffs && t.handoffs[id].phase.Finalized? ==>
      id in s.handoffs && s.handoffs[id].phase.Finalized?
  }

  lemma EarlyStepsFinalizeNothing(s: State, op: HandoffOp)
    requires op.Prepare? || op.SettleHandoff? || op.Confirm? || op.Recreate? || op.Initialize?
    ensures HandoffStep(s, op).Done? ==> NoneFinalized(s, HandoffStep(s, op).state)
  {
    hide SettlementStatus;
    hide Capture;
    hide Fenced;
    hide FindOpen;
    hide OpenFor;
    hide TransferBlockers;
    hide Merge;
  }

  lemma AuthorizeFinalizesNothing(s: State, req: AuthorizeIn)
    ensures AuthorizeCommit(s, req).Done? ==> NoneFinalized(s, AuthorizeCommit(s, req).state)
  {
    hide SettlementStatus;
    hide Capture;
    hide OpenFor;
  }

  lemma LateStepsFinalizeNothing(s: State, op: HandoffOp)
    requires op.Authorize? || op.Decide? || op.Abort? || op.EndAbort?
    ensures HandoffStep(s, op).Done? ==> NoneFinalized(s, HandoffStep(s, op).state)
  {
    hide AuthorizeCommit;
    hide OpenFor;
    hide PrepareHandoff;
    hide RecordSettlement;
    hide ConfirmSnapshot;
    hide FinalizeCommit;
    if op.Authorize? { AuthorizeFinalizesNothing(s, op.authorize); }
  }

  lemma OnlyFinalizeFinalizes(s: State, op: Op)
    requires !(op.OnHandoff? && op.handoff.Finalize?)
    ensures NoneFinalized(s, Step(s, op))
  {
    hide MoneyStep;
    hide HandoffStep;
    hide ClosureStep;
    if op.OnHandoff? {
      if op.handoff.Authorize? || op.handoff.Decide? || op.handoff.Abort? || op.handoff.EndAbort? {
        LateStepsFinalizeNothing(s, op.handoff);
      } else {
        EarlyStepsFinalizeNothing(s, op.handoff);
      }
    }
  }

  /** Openings that stay where they are keep naming what they named. */
  lemma SameOpenings(a: seq<Period>, b: seq<Period>)
    requires |a| <= |b| && forall i :: 0 <= i < |a| ==> b[i].opening == a[i].opening
    requires forall i :: |a| <= i < |b| ==> b[i].opening.None?
    ensures forall id :: Opened(b, id) <==> Opened(a, id)
  {
    forall id ensures Opened(b, id) <==> Opened(a, id) {
      if Opened(a, id) {
        var i :| 0 <= i < |a| && Opens(a[i], id);
        assert Opens(b[i], id);
      }
      if Opened(b, id) {
        var i :| 0 <= i < |b| && Opens(b[i], id);
        assert Opens(a[i], id);
      }
    }
  }

  lemma QuietKeepsOpened(s: State, op: Op)
    requires FinalizedOpens(s) && !(op.OnHandoff? && op.handoff.Finalize?)
    ensures FinalizedOpens(Step(s, op))
  {
    OpeningsKept(s, op);
    OnlyFinalizeFinalizes(s, op);
    hide Step;
    var t := Step(s, op);
    SameOpenings(s.periods, t.periods);
    hide Opened;
    forall i, id | 0 <= i < |t.periods| && Opens(t.periods[i], id)
      ensures i < |s.periods| && Opens(s.periods[i], id)
    {
    }
  }

  /** One more period, opened by a handoff that had opened none. */
  lemma OpenOneMore(s: State, t: State, me: Id)
    requires FinalizedOpens(s) && |t.periods| == |s.periods| + 1 && Opens(t.periods[|s.periods|], me)
    requires forall i :: 0 <= i < |s.periods| ==>
              t.periods[i].opening == s.periods[i].opening && !Opens(s.periods[i], me)
    requires forall id :: id in t.handoffs && id != me ==> id in s.handoffs && t.handoffs[id] == s.handoffs[id]
    ensures FinalizedOpens(t)
  {
    var n := |s.periods|;
    forall i, id | 0 <= i < n ensures Opens(t.periods[i], id) <==> Opens(s.periods[i], id) { }
    forall id | id in t.handoffs && t.handoffs[id].phase.Finalized? ensures Opened(t.periods, id) {
      if id != me {
        assert Opened(s.periods, id);
        var i :| 0 <= i < n && Opens(s.periods[i], id);
        assert Opens(t.periods[i], id);
      }
    }
  }

  lemma NotOpenedYet(s: State, me: Id)
    requires HandoffLaw(s) && OpeningLaw(s) && me in s.handoffs && s.handoffs[me].finalization.None?
    ensures forall i :: 0 <= i < |s.periods| ==> !Opens(s.periods[i], me)
  {
    hide EvidenceOk;
    hide GrantOk;
    hide Agreed;
    assert HandoffOk(s.handoffs[me]);
    forall i | 0 <= i < |s.periods| ensures !Opens(s.periods[i], me) {
      assert s.periods[i].opening.Some? ==> OpeningOk(s, s.periods[i].opening.value);
    }
  }

  lemma FinalizeKeepsOpened(s: State, req: FinalizeIn, t: State)
    requires HandoffLaw(s) && OpeningLaw(s) && FinalizedOpens(s) && req.scope.operation in s.handoffs
    requires s.handoffs[req.scope.operation].finalization.None? && FinalizeCommit(s, req) == Done(t)
    ensures FinalizedOpens(t)
  {
    hide HandoffLaw;
    hide HandoffOk;
    hide OpeningLaw;
    hide FinalizeCommit;
    hide FinalizedOpens;
    hide Moves;
    hide Agreed;
    FinalizeAgrees(s, req, t);
    FinalizeTouches(s, req);
    NotOpenedYet(s, req.scope.operation);
    OpenOneMore(s, t, req.scope.operation);
  }

  lemma StepKeepsOpened(s: State, op: Op)
    requires HandoffLaw(s) && OpeningLaw(s) && FinalizedOpens(s)
    ensures FinalizedOpens(Step(s, op))
  {
    hide FinalizedOpens;
    hide HandoffLaw;
    hide OpeningLaw;
    if op.OnHandoff? && op.handoff.Finalize? {
      var req := op.handoff.finalized;
      FinalizeStep(s, req);
      hide Step;
      if FinalizeCommit(s, req).Done? {
        if s.handoffs[req.scope.operation].finalization.None? {
          FinalizeKeepsOpened(s, req, FinalizeCommit(s, req).state);
        }
      }
    } else {
      QuietKeepsOpened(s, op);
    }
  }

  /** In every reachable state a handoff is finalized exactly when it opened a period, it opened exactly one, and
      the opening balance there is the one both sides confirmed. */
  lemma {:induction false} RunOpensOnce(s: State, ops: seq<Op>)
    requires Init(s)
    ensures FinalizedOpens(Run(s, ops)) && OpeningLaw(Run(s, ops))
  {
    hide Step;
    RunKeepsOpenings(s, ops);
    if |ops| > 0 {
      hide OpeningLaw;
      RunOpensOnce(s, ops[..|ops| - 1]);
      RunKeepsHandoffs(s, ops[..|ops| - 1]);
      StepKeepsOpened(Run(s, ops[..|ops| - 1]), ops[|ops| - 1]);
    }
  }
}
