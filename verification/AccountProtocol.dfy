/** Exactly when the steps of the two protocols go through, in reachable states, on the rows. */
module AccountProtocol {
  import opened Common
  import opened Evidence
  import opened Account
  import opened AccountHandoff
  import opened AccountClosure
  import opened AccountObligations

  /** The last period is open and is this owner's, in this version. */
  predicate Responsible(s: State, owner: Id, version: int) {
    |s.periods| > 0 &&
    var p := s.periods[|s.periods| - 1];
    p.until.None? && p.owner == owner && p.version == version
  }

  lemma ResponsibleIs(s: State, owner: Id, version: int)
    requires ChainLaw(s.periods)
    ensures OpenFor(s.periods, owner, version) <==> Responsible(s, owner, version)
    ensures Responsible(s, owner, version) ==> FindOpen(s.periods) == Some(|s.periods| - 1)
  {
    OpenIsLast(s.periods);
    hide ChainLaw;
  }

  // ---------------------------------------------------------------- handoff

  /** A handoff begins exactly when the account is open and unfenced and the source is responsible since before the
      cutoff; it begins in preparation, bound to that period, with nothing on record. */
  lemma PrepareIff(s: State, req: PrepareIn)
    requires ChainLaw(s.periods) && req.operation !in s.handoffs
    ensures var r := PrepareHandoff(s, req);
            && (r.Done? <==>
                  && req.wellFormed && req.source != req.target && req.ownershipVersion >= 1
                  && !s.funds.state.Closed? && !Fenced(s) && Responsible(s, req.source, req.ownershipVersion)
                  && s.periods[|s.periods| - 1].from <= req.cutoff)
            && (r.Done? ==>
                  r.state == s.(handoffs := s.handoffs[req.operation :=
                    Handoff(req, |s.periods| - 1, Preparing, 1, map[], map[], map[], None, None, None, None, None)]))
  {
    ResponsibleIs(s, req.source, req.ownershipVersion);
    OpenIsLast(s.periods);
    hide Fenced;
    hide ChainLaw;
    hide FindOpen;
  }

  /** The scope names this handoff. */
  predicate Names(s: State, scope: Scope) {
    scope.operation in s.handoffs && s.handoffs[scope.operation].request.ownershipVersion == scope.ownershipVersion
  }

  /** The status of the handoff is clear, by the rows. */
  ghost predicate ClearNow(s: State, h: Handoff) {
    && (h.phase.Preparing? || h.phase.Prepared?) && h.version in h.receipts
    && h.receipts[h.version].state == Capture(s) && Vouches(h.receipts[h.version].evidence)
    && NothingOwed(s) && s.funds.balance >= 0 && !s.funds.state.Closed?
  }

  /** The report is about the account as it is. */
  predicate UpToDate(s: State, req: SettlementIn) {
    && req.state == Capture(s) && req.financial.balanceKnown && req.financial.balance == s.funds.balance
    && req.financial.currency.TWD?
  }

  predicate Settleable(s: State, h: Handoff, req: SettlementIn) {
    && Responsible(s, h.request.source, h.request.ownershipVersion)
    && (h.phase.Preparing? || h.phase.Prepared?) && UpToDate(s, req)
  }

  lemma CapturedBalance(s: State)
    ensures Capture(s).balance == s.funds.balance
  { }

  /** A settlement is recorded, the first time, exactly for a handoff under preparation whose source is responsible,
      by a report without negative counts about the account as it is. It opens the next version, which is prepared,
      with a snapshot of the balance, exactly when the report vouches and the rows owe nothing. */
  lemma SettlementIff(s: State, req: SettlementIn)
    requires HandoffLaw(s) && ChainLaw(s.periods) && req.receipt !in s.receiptIds
    ensures var r := RecordSettlement(s, req);
            && (r.Done? <==>
                  && req.wellFormed && !HasNegative(req.financial) && Names(s, req.scope)
                  && Settleable(s, s.handoffs[req.scope.operation], req))
            && (r.Done? ==> Recorded(s, r.state, req))
  {
    hide SettlementStatus;
    hide HandoffOk;
    hide OpenFor;
    hide Responsible;
    hide Capture;
    hide Versioned;
    hide HasNegative;
    hide Settle;
    CapturedBalance(s);
    if Names(s, req.scope) {
      var h := s.handoffs[req.scope.operation];
      ResponsibleIs(s, h.request.source, h.request.ownershipVersion);
      hide ChainLaw;
      if !HasNegative(req.financial) && (h.phase.Preparing? || h.phase.Prepared?) {
        SettledStatus(s, h, req);
      }
    }
  }

  ghost predicate Recorded(s: State, t: State, req: SettlementIn) {
    && req.scope.operation in s.handoffs && req.scope.operation in t.handoffs
    && Versioned(s, s.handoffs[req.scope.operation], t.handoffs[req.scope.operation], req)
    && t == s.(handoffs := t.handoffs, receiptIds := s.receiptIds[req.receipt := req])
  }

  ghost predicate Versioned(s: State, h: Handoff, h': Handoff, req: SettlementIn) {
    var v := h.version + 1;
    && h'.version == v && v in h'.receipts && h'.receipts[v].state == Capture(s)
    && (h'.phase.Prepared?
        <==> Vouches(req.financial) && NothingOwed(s) && s.funds.balance >= 0 && !s.funds.state.Closed?)
    && (h'.phase.Prepared? || h'.phase.Preparing?)
    && (h'.phase.Prepared? ==> v in h'.snapshots && h'.snapshots[v] == s.funds.balance)
    && (!h'.phase.Prepared? ==> h'.snapshots == h.snapshots) && h'.confirmed == h.confirmed
  }

  lemma SettledStatus(s: State, h: Handoff, req: SettlementIn)
    requires HandoffOk(h) && !HasNegative(req.financial) && (h.phase.Preparing? || h.phase.Prepared?)
    ensures var h' := Settle(h, Capture(s), req.financial);
            Versioned(s, h, h', req) && forall t :: SettlementStatus(t, h').Status?
  {
    hide HandoffOk;
    hide SettlementStatus;
    hide Settle;
    var h' := Settle(h, Capture(s), req.financial);
    SettleKeepsOk(h, Capture(s), req.financial);
    forall t ensures SettlementStatus(t, h').Status? { StatusHasSnapshot(t, h'); }
    SettleMeans(s, h, req);
    hide Versioned;
  }

  lemma SettleMeans(s: State, h: Handoff, req: SettlementIn)
    requires !HasNegative(req.financial)
    ensures Versioned(s, h, Settle(h, Capture(s), req.financial), req)
  {
    hide TransferBlockers;
    hide NothingOwed;
    hide Vouches;
    hide Local;
    MergedClearIff(s, req.financial);
    LocalCounts(s);
    assert Capture(s).state == s.funds.state;
    hide Capture;
  }

  ghost predicate Confirmable(s: State, h: Handoff, req: ConfirmIn) {
    && Responsible(s, h.request.source, h.request.ownershipVersion)
    && (req.user == h.request.source || req.user == h.request.target)
    && ClearNow(s, h) && req.version == h.version && req.balance == s.funds.balance
  }

  /** The status as confirmations and authorizations read it. */
  lemma StatusReads(s: State, h: Handoff)
    requires HandoffOk(h)
    ensures SettlementStatus(s, h).Status?
    ensures SettlementStatus(s, h).snapshot
            == if ClearNow(s, h)
               then Some(Snapshot(h.version, s.funds.balance, (h.version, h.request.source) in h.confirmed,
                                  (h.version, h.request.target) in h.confirmed))
               else None
  {
    hide SettlementStatus;
    hide NothingOwed;
    hide Capture;
    StatusClearIff(s, h);
    StatusHasSnapshot(s, h);
    if SettlementStatus(s, h).snapshot.Some? { SnapshotBalance(s, h); }
    hide HandoffOk;
  }

  /** A participant's confirmation is recorded exactly when it names the version and the balance of a clear status. */
  lemma ConfirmIff(s: State, req: ConfirmIn)
    requires HandoffLaw(s) && ChainLaw(s.periods)
    ensures ConfirmSnapshot(s, req).Done? <==>
            && req.wellFormed && req.version >= 2 && req.balance >= 0 && req.currency.TWD?
            && Names(s, req.scope) && Confirmable(s, s.handoffs[req.scope.operation], req)
  {
    hide SettlementStatus;
    hide HandoffOk;
    hide OpenFor;
    hide Responsible;
    hide ClearNow;
    if Names(s, req.scope) {
      var h := s.handoffs[req.scope.operation];
      StatusReads(s, h);
      ResponsibleIs(s, h.request.source, h.request.ownershipVersion);
      hide ChainLaw;
    }
  }

  ghost predicate Authorizable(s: State, h: Handoff, req: AuthorizeIn) {
    && Responsible(s, h.request.source, h.request.ownershipVersion) && ClearNow(s, h) && req.version == h.version
    && (h.version, h.request.source) in h.confirmed && (h.version, h.request.target) in h.confirmed
  }

  ghost predicate Authorized(s: State, r: Outcome, req: AuthorizeIn) {
    && r.Done? && req.scope.operation in r.state.handoffs
    && r.state.handoffs[req.scope.operation].phase.CommitAuthorized?
    && r.state.handoffs[req.scope.operation].grant == Some(Grant(req, Capture(s)))
  }

  /** A commit is authorized, the first time, exactly when the status is clear at the version named and both sides
      have confirmed it; the grant remembers the account as it is. */
  lemma AuthorizeIff(s: State, req: AuthorizeIn)
    requires HandoffLaw(s) && ChainLaw(s.periods)
    requires Names(s, req.scope) ==> s.handoffs[req.scope.operation].grant.None?
    ensures AuthorizeCommit(s, req).Done? <==>
            && req.wellFormed && req.version >= 2
            && Names(s, req.scope) && Authorizable(s, s.handoffs[req.scope.operation], req)
    ensures AuthorizeCommit(s, req).Done? ==> Authorized(s, AuthorizeCommit(s, req), req)
  {
    hide SettlementStatus;
    hide HandoffOk;
    hide OpenFor;
    hide Responsible;
    hide Capture;
    hide NothingOwed;
    hide Vouches;
    if Names(s, req.scope) {
      var h := s.handoffs[req.scope.operation];
      StatusReads(s, h);
      ResponsibleIs(s, h.request.source, h.request.ownershipVersion);
      hide ChainLaw;
    }
  }

  ghost predicate Decidable(s: State, h: Handoff, req: FinalizeIn) {
    && h.phase.CommitAuthorized? && req.owner == h.request.target && req.committedAt >= h.request.cutoff
    && Responsible(s, h.request.source, h.request.ownershipVersion)
    && h.grant.Some? && req.authorization == h.grant.value.request.authorization
  }

  /** The decision is recorded, the first time, exactly under the grant, for the target, at or after the cutoff, while
      the source is still responsible. */
  lemma DecideIff(s: State, req: FinalizeIn)
    requires ChainLaw(s.periods) && (Names(s, req.scope) ==> s.handoffs[req.scope.operation].decision.None?)
    ensures DecideCommit(s, req).Done? <==>
            FinalizeWellFormed(req) && Names(s, req.scope) && Decidable(s, s.handoffs[req.scope.operation], req)
  {
    hide OpenFor;
    hide Responsible;
    if Names(s, req.scope) {
      var h := s.handoffs[req.scope.operation];
      ResponsibleIs(s, h.request.source, h.request.ownershipVersion);
      hide ChainLaw;
    }
  }

  ghost predicate Finalizable(s: State, h: Handoff, req: FinalizeIn) {
    && h.decision == Some(req) && Responsible(s, h.request.source, h.request.ownershipVersion)
    && s.periods[|s.periods| - 1].from < req.committedAt && h.grant.Some? && h.grant.value.state == Capture(s)
  }

  /** Then finalizing, the first time, needs no more than that decision, the source still responsible since before the
      commit, and the account exactly as it was granted; every other check of the transaction repeats what is known. */
  lemma FinalizeIff(s: State, req: FinalizeIn)
    requires HandoffLaw(s) && ChainLaw(s.periods)
    requires Names(s, req.scope) ==> s.handoffs[req.scope.operation].finalization.None?
    ensures FinalizeCommit(s, req).Done? <==>
            FinalizeWellFormed(req) && Names(s, req.scope) && Finalizable(s, s.handoffs[req.scope.operation], req)
  {
    hide OpenFor;
    hide FindOpen;
    hide Capture;
    hide NothingOwed;
    hide EvidenceOk;
    hide GrantOk;
    if Names(s, req.scope) {
      var h := s.handoffs[req.scope.operation];
      assert HandoffOk(h);
      ResponsibleIs(s, h.request.source, h.request.ownershipVersion);
      if h.grant.Some? && h.grant.value.state == Capture(s) { GrantedIsClear(s, h); }
      hide ChainLaw;
      hide HandoffLaw;
    }
  }

  /** A handoff can be cancelled, the first time, exactly before its decision, naming the grant if there is one. */
  lemma AbortIff(s: State, req: AbortIn)
    requires ChainLaw(s.periods) && (Names(s, req.scope) ==> s.handoffs[req.scope.operation].cancellation.None?)
    ensures BeginAbort(s, req).Done? <==>
            && req.wellFormed && Names(s, req.scope)
            && var h := s.handoffs[req.scope.operation];
               && (h.phase.Preparing? || h.phase.Prepared? || h.phase.CommitAuthorized?)
               && Responsible(s, h.request.source, h.request.ownershipVersion)
               && (h.grant.Some? ==> req.authorization == Some(h.grant.value.request.authorization))
  {
    hide OpenFor;
    hide Responsible;
    if Names(s, req.scope) {
      var h := s.handoffs[req.scope.operation];
      ResponsibleIs(s, h.request.source, h.request.ownershipVersion);
      hide ChainLaw;
    }
  }

  // ---------------------------------------------------------------- closure

  predicate NamesClosure(s: State, scope: ClosureScope) {
    && scope.operation in s.closures && s.closures[scope.operation].request.scope.owner == scope.owner
    && s.closures[scope.operation].request.scope.ownershipVersion == scope.ownershipVersion
  }

  /** A closure begins exactly when the account is active and unfenced and its owner responsible at the cutoff; every
      subject then has a revocation to acknowledge. */
  lemma PrepareClosureIff(s: State, req: PrepareClosureIn, subjects: set<Subject>, now: Time)
    requires ChainLaw(s.periods) && req.scope.operation !in s.closures
    ensures var r := PrepareClosure(s, req, subjects, now);
            && (r.Done? <==>
                  && req.wellFormed && !Fenced(s) && s.funds.state.Active?
                  && Responsible(s, req.scope.owner, req.scope.ownershipVersion)
                  && s.periods[|s.periods| - 1].from <= req.cutoff <= now)
            && (r.Done? ==>
                  && req.scope.operation in r.state.closures
                  && var c := r.state.closures[req.scope.operation];
                     && c.phase.ClosurePreparing? && c.request == req && c.sourcePeriod == |s.periods| - 1
                     && c.tasks.Keys == subjects && (forall x :: x in subjects ==> c.tasks[x].None?)
                     && c.settlements == [] && c.completion.None? && c.cancellation.None? && c.retired == {})
  {
    ResponsibleIs(s, req.scope.owner, req.scope.ownershipVersion);
    hide Fenced;
    hide ChainLaw;
    hide FindOpen;
    hide OpenFor;
  }

  /** A revocation is acknowledged once, by its subject's own task, while the closure is being prepared or cancelled. */
  lemma RevokeIff(s: State, scope: ClosureScope, subject: Subject, receipt: Id, wellFormed: bool)
    ensures var r := RecordRevocation(s, scope, subject, receipt, wellFormed);
            && (r.Done? <==>
                  && wellFormed && NamesClosure(s, scope)
                  && var c := s.closures[scope.operation];
                     && subject in c.tasks
                     && (if c.tasks[subject].Some? then c.tasks[subject].value == receipt
                         else c.phase.ClosurePreparing? || c.phase.Canceling?))
            && (r.Done? ==>
                  r.state == s.(closures := s.closures[scope.operation := s.closures[scope.operation].(
                    tasks := s.closures[scope.operation].tasks[subject := Some(receipt)])]))
  {
    if NamesClosure(s, scope) {
      var c := s.closures[scope.operation];
      if subject in c.tasks && c.tasks[subject] == Some(receipt) {
        assert c.tasks[subject := Some(receipt)] == c.tasks;
        assert s.closures[scope.operation := c.(tasks := c.tasks)] == s.closures;
      }
    }
  }

  /** The account is closed, the first time, exactly by a command that is not retired, naming the usable settlement
      of a ready closure, after its period began. */
  lemma CloseIff(s: State, req: CloseIn, now: Time, closedAt: Time)
    requires ClosureLaw(s)
    ensures CloseCloud(s, req, now, closedAt).Done? && CloseCloud(s, req, now, closedAt).state != s <==>
            && req.wellFormed && NamesClosure(s, req.scope)
            && var c := s.closures[req.scope.operation];
               && req !in c.retired && c.completion.None? && IsReady(s, c, now)
               && Latest(c.settlements).value.id == req.settlement && closedAt > s.periods[c.sourcePeriod].from
  {
    if NamesClosure(s, req.scope) {
      var c := s.closures[req.scope.operation];
      assert ClosureOk(c);
      ReadyIff(s, c, now);
      if IsReady(s, c, now) { ReadyNames(s, c, now); }
    }
    hide ClosureReadiness;
    hide ClosureOk;
    hide NothingOwed;
    hide Usable;
    hide Latest;
  }

  /** Readiness by the rows. */
  ghost predicate IsReady(s: State, c: Closure, now: Time) {
    && c.phase.ClosurePreparing? && ClosureOwner(s, c)
    && Latest(c.settlements).Some? && Usable(s, c, Latest(c.settlements).value, now)
    && Vouches(Latest(c.settlements).value.evidence)
    && NothingOwed(s) && s.funds.balance == 0 && s.funds.state.Active?
    && (forall x :: x in c.tasks ==> c.tasks[x].Some?)
  }

  lemma ReadyNames(s: State, c: Closure, now: Time)
    requires ClosureOk(c) && IsReady(s, c, now)
    ensures ClosureReadiness(s, c, now).ClosureStatus?
    ensures ClosureReadiness(s, c, now).receipt == Some(Latest(c.settlements).value.id)
  {
    hide Capture;
    hide Merge;
    hide Local;
    hide ClosureBlockers;
    hide NothingOwed;
    hide Latest;
  }

  // ---------------------------------------------------------------- the ends of both protocols, and the beginning

  /** The first period is given once, by a well-formed request on an open account; the same request may be repeated. */
  lemma InitializeIff(s: State, req: InitializeIn)
    ensures var r := InitializeResponsibility(s, req);
            && (r.Done? <==>
                  && req.wellFormed && req.ownershipVersion >= 1 && !s.funds.state.Closed?
                  && (|s.periods| > 0 ==>
                        && s.periods[0].owner == req.owner && s.periods[0].version == req.ownershipVersion
                        && s.periods[0].from == req.from && s.periods[0].evidence == req.evidence))
            && (r.Done? && |s.periods| > 0 ==> r.state == s)
            && (r.Done? && s.periods == [] ==>
                  r.state == s.(periods := [Period(req.owner, req.ownershipVersion, req.from, None, req.evidence,
                                                   None)]))
  { }

  /** Creating the account again succeeds exactly as the replay it is. */
  lemma RecreateIff(s: State, req: Creation)
    ensures ReplayCreation(s, req).Done? <==> req.wellFormed && s.creation == Some(req)
    ensures ReplayCreation(s, req).Done? ==> ReplayCreation(s, req).state == s
  { }

  /** A cancelled handoff is released once, under its cancellation, while the source is responsible. */
  lemma EndAbortIff(s: State, req: CompleteAbortIn)
    requires ChainLaw(s.periods) && (Names(s, req.scope) ==> s.handoffs[req.scope.operation].release.None?)
    ensures CompleteAbort(s, req).Done? <==>
            && req.wellFormed && Names(s, req.scope)
            && var h := s.handoffs[req.scope.operation];
               && h.cancellation.Some? && h.cancellation.value.cancellation == req.cancellation && h.phase.AbortPending?
               && Responsible(s, h.request.source, h.request.ownershipVersion)
  {
    hide OpenFor;
    hide Responsible;
    if Names(s, req.scope) {
      var h := s.handoffs[req.scope.operation];
      ResponsibleIs(s, h.request.source, h.request.ownershipVersion);
      hide ChainLaw;
    }
  }

  /** A closing command can be retired exactly before it closed; a closure cancelled exactly before that, and then
      released under its cancellation. */
  lemma RetireIff(s: State, req: CloseIn)
    requires NamesClosure(s, req.scope) ==>
               s.closures[req.scope.operation].completion.None? && req !in s.closures[req.scope.operation].retired
    ensures var r := RetireClose(s, req);
            && (r.Done? <==> req.wellFormed && NamesClosure(s, req.scope)
                             && s.closures[req.scope.operation].phase.ClosurePreparing?)
            && (r.Done? ==> req.scope.operation in r.state.closures
                            && r.state.closures[req.scope.operation].retired
                               == s.closures[req.scope.operation].retired + {req})
  { }

  lemma CancelIff(s: State, scope: ClosureScope, cancellation: Id, decision: Id, release: Id, wellFormed: bool)
    ensures (NamesClosure(s, scope) ==> s.closures[scope.operation].cancellation.None?) ==>
              (CancelClosure(s, scope, cancellation, decision, wellFormed).Done? <==>
                 wellFormed && NamesClosure(s, scope) && s.closures[scope.operation].phase.ClosurePreparing?)
    ensures (NamesClosure(s, scope) ==> s.closures[scope.operation].release.None?) ==>
              (CompleteCancellation(s, scope, cancellation, release, wellFormed).Done? <==>
                 && wellFormed && NamesClosure(s, scope) && s.closures[scope.operation].cancellation.Some?
                 && s.closures[scope.operation].cancellation.value.0 == cancellation
                 && s.closures[scope.operation].phase.Canceling?)
  { }

  /** The report about a closure is current: seen in its five minutes, up to the cutoff, of the closure as it is. */
  predicate CurrentReport(s: State, c: Closure, req: ClosureSettlementIn, now: Time) {
    && req.state == CaptureClosure(s, c) && c.request.cutoff == req.cutoff
    && req.cutoff <= req.coveredThrough <= req.observedAt <= now < req.expiresAt <= req.observedAt + 300_000_000
    && req.observedAt < req.expiresAt
    && req.financial.balanceKnown && req.financial.currency.TWD? && req.financial.balance == s.funds.balance
  }

  /** A closure's settlement is recorded, the first time, exactly by a current report without negative counts, while the
      closure is prepared by its owner; it goes on file with what the store itself knows. */
  lemma ClosureSettlementIff(s: State, req: ClosureSettlementIn, now: Time)
    requires req.receipt !in s.closureReceiptIds
    ensures var r := RecordClosureSettlement(s, req, now);
            && (r.Done? <==>
                  && req.wellFormed && !HasNegative(req.financial) && NamesClosure(s, req.scope)
                  && var c := s.closures[req.scope.operation];
                     c.phase.ClosurePreparing? && ClosureOwner(s, c) && CurrentReport(s, c, req, now))
            && (r.Done? ==>
                  && req.scope.operation in r.state.closures
                  && r.state.closures[req.scope.operation].settlements
                     == s.closures[req.scope.operation].settlements
                        + [ClosureReceipt(req.receipt, req.state, Merge(req.financial, Local(Capture(s))),
                                          req.observedAt, req.coveredThrough, req.expiresAt)])
  {
    CapturedBalance(s);
    hide Capture;
    hide Merge;
    hide Local;
    hide HasNegative;
    hide ClosureOwner;
  }

  // ---------------------------------------------------------------- repetitions

  /** A repeated call is answered without effect if it is the call on record, and refused if it is another one. */
  predicate Repeats(s: State, r: Outcome, same: bool) { if same then r == Done(s) else r.Fail? }

  lemma HandoffRepeats(s: State, prepare: PrepareIn, settle: SettlementIn, decide: FinalizeIn, abort: AbortIn)
    ensures prepare.operation in s.handoffs && prepare.wellFormed && prepare.source != prepare.target
            && prepare.ownershipVersion >= 1 ==>
              Repeats(s, PrepareHandoff(s, prepare), s.handoffs[prepare.operation].request == prepare)
    ensures settle.receipt in s.receiptIds && s.receiptIds[settle.receipt] != settle ==>
              RecordSettlement(s, settle).Fail?
    ensures settle.receipt in s.receiptIds && RecordSettlement(s, settle).Done? ==>
              RecordSettlement(s, settle).state == s
    ensures FinalizeWellFormed(decide) && Names(s, decide.scope)
            && s.handoffs[decide.scope.operation].decision.Some? ==>
              Repeats(s, DecideCommit(s, decide), s.handoffs[decide.scope.operation].decision.value == decide)
    ensures abort.wellFormed && Names(s, abort.scope) && s.handoffs[abort.scope.operation].cancellation.Some? ==>
              Repeats(s, BeginAbort(s, abort), s.handoffs[abort.scope.operation].cancellation.value == abort)
  {
    hide SettlementStatus;
    hide OpenFor;
    hide Capture;
    hide FindOpen;
    hide Fenced;
    hide Settle;
  }

  /** A finalized handoff answers its own finalization, and a granted one its own authorization while the account is as
      it was granted. */
  lemma OutcomeRepeats(s: State, req: FinalizeIn, auth: AuthorizeIn)
    requires HandoffLaw(s) && ChainLaw(s.periods)
    ensures FinalizeWellFormed(req) && Names(s, req.scope) && s.handoffs[req.scope.operation].finalization.Some? ==>
              Repeats(s, FinalizeCommit(s, req), s.handoffs[req.scope.operation].decision == Some(req))
    ensures auth.wellFormed && auth.version >= 2 && Names(s, auth.scope)
            && s.handoffs[auth.scope.operation].grant.Some? ==>
              var h := s.handoffs[auth.scope.operation];
              Repeats(s, AuthorizeCommit(s, auth),
                      && Responsible(s, h.request.source, h.request.ownershipVersion) && h.grant.value.request == auth
                      && h.phase.CommitAuthorized? && h.grant.value.state == Capture(s))
  {
    hide EvidenceOk;
    hide GrantOk;
    hide Capture;
    hide OpenFor;
    hide FindOpen;
    hide Responsible;
    hide SettlementStatus;
    if Names(s, req.scope) { assert HandoffOk(s.handoffs[req.scope.operation]); }
    if Names(s, auth.scope) {
      var h := s.handoffs[auth.scope.operation];
      ResponsibleIs(s, h.request.source, h.request.ownershipVersion);
    }
    hide ChainLaw;
    hide HandoffLaw;
  }

  lemma ReleaseRepeats(s: State, req: CompleteAbortIn)
    requires req.wellFormed && Names(s, req.scope) && s.handoffs[req.scope.operation].release.Some?
    requires s.handoffs[req.scope.operation].cancellation.Some?
    ensures var h := s.handoffs[req.scope.operation];
            Repeats(s, CompleteAbort(s, req),
                    h.cancellation.value.cancellation == req.cancellation && h.release.value == req.release)
  {
    hide OpenFor;
  }

  lemma ClosureRepeats(s: State, prepare: PrepareClosureIn, subjects: set<Subject>, close: CloseIn, now: Time, at: Time)
    ensures prepare.wellFormed && prepare.scope.operation in s.closures ==>
              Repeats(s, PrepareClosure(s, prepare, subjects, now),
                      s.closures[prepare.scope.operation].request == prepare)
    ensures close.wellFormed && NamesClosure(s, close.scope) && s.closures[close.scope.operation].completion.Some? ==>
              var c := s.closures[close.scope.operation];
              && (close !in c.retired ==> Repeats(s, CloseCloud(s, close, now, at), c.completion.value == close))
              && (close in c.retired ==> CloseCloud(s, close, now, at).Fail? && RetireClose(s, close) == Done(s))
              && (close !in c.retired ==> Repeats(s, RetireClose(s, close), c.completion.value == close))
  {
    hide ClosureReadiness;
    hide Fenced;
    hide OpenFor;
    hide FindOpen;
  }

  lemma CancellationRepeats(s: State, scope: ClosureScope, cancellation: Id, decision: Id, release: Id)
    requires NamesClosure(s, scope) && s.closures[scope.operation].cancellation.Some?
    ensures Repeats(s, CancelClosure(s, scope, cancellation, decision, true),
                    s.closures[scope.operation].cancellation.value == (cancellation, decision))
    ensures s.closures[scope.operation].release.Some? ==>
              Repeats(s, CompleteCancellation(s, scope, cancellation, release, true),
                      && s.closures[scope.operation].cancellation.value.0 == cancellation
                      && s.closures[scope.operation].release.value == release)
  { }

  lemma ClosureSettlementRepeats(s: State, req: ClosureSettlementIn, now: Time)
    requires req.receipt in s.closureReceiptIds
    ensures RecordClosureSettlement(s, req, now).Done? ==>
              s.closureReceiptIds[req.receipt] == req && RecordClosureSettlement(s, req, now).state == s
  {
    hide ClosureOwner;
    hide Capture;
    hide Merge;
    hide Local;
  }
}
