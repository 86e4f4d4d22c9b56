/** What it takes to retire raw logs, said on the rows: a retirement is accepted exactly when it is sanctioned,
    cleared, proven, unheld, alone and next in line; a revoked clearance never carries one again. */
module RetentionAcceptance {
  import opened Common
  import opened RetentionFence

  // ---------------------------------------------------------------- the conditions

  /** The policy is active and its recovery was approved. */
  predicate Sanctioned(f: Fence, p: Plan) {
    p.policy in f.policies && f.policies[p.policy].active && f.policies[p.policy].recovery.Some?
  }

  /** The clearance stands, was given under this policy and covers the whole range. */
  predicate Cleared(f: Fence, p: Plan) {
    && p.clearance in f.clearances && !f.clearances[p.clearance].revoked && f.clearances[p.clearance].policy == p.policy
    && f.clearances[p.clearance].from <= p.from && p.through <= f.clearances[p.clearance].through
  }

  /** One valid proof of each consumer the policy requires, in its order. */
  predicate Proven(f: Fence, p: Plan, proofs: seq<Proof>) {
    p.policy in f.policies &&
    var consumers := f.policies[p.policy].spec.consumers;
    |proofs| == |consumers| && forall i :: 0 <= i < |consumers| ==>
      proofs[i].consumer == consumers[i] && proofs[i].valid
  }

  /** Sequence number n is in the hold. */
  predicate InHold(h: HoldRequest, n: int) { h.from == 0 || h.from <= n <= h.through }

  /** No number of the range is in a hold that is not released. */
  ghost predicate Unheld(f: Fence, p: Plan) {
    forall id, n :: id in f.holds && !f.holds[id].status.Released? && p.from <= n <= p.through ==>
      !InHold(f.holds[id].request, n)
  }

  predicate NothingUnderWay(f: Fence) {
    forall i :: 0 <= i < |f.operations| ==> f.operations[i].status.Completed? || f.operations[i].status.AbortedOp?
  }

  /** Everything before the range is retired, and nothing else is. */
  ghost predicate NextInLine(f: Fence, p: Plan) { CoversExactly(f.operations, p.from - 1) && p.from >= 1 }

  ghost predicate Acceptable(f: Fence, p: Plan, proofs: seq<Proof>) {
    Sanctioned(f, p) && Cleared(f, p) && Proven(f, p, proofs) && Unheld(f, p) && NothingUnderWay(f) && NextInLine(f, p)
  }

  // ---------------------------------------------------------------- what the queries mean

  /** A hold overlaps a plan exactly when some sequence number is in both. */
  lemma OverlapsIff(h: HoldRequest, p: Plan)
    requires p.from <= p.through && (h.from == 0 || h.from <= h.through)
    ensures Overlaps(h, p) <==> exists n :: p.from <= n <= p.through && InHold(h, n)
  {
    if Overlaps(h, p) {
      var n := if h.from == 0 || h.from <= p.from then p.from else h.from;
      assert p.from <= n <= p.through && InHold(h, n);
    }
  }

  /** Holds on file have a range, or are the hold on everything. */
  ghost predicate HoldsHaveRanges(f: Fence) {
    forall id :: id in f.holds ==>
      f.holds[id].request.from == 0 || f.holds[id].request.from <= f.holds[id].request.through
  }

  lemma UnheldIs(f: Fence, p: Plan)
    requires HoldsHaveRanges(f) && p.from <= p.through
    ensures HoldBlocks(f, p) <==> !Unheld(f, p)
  {
    forall id | id in f.holds ensures Overlaps(f.holds[id].request, p)
                                      <==> exists n :: p.from <= n <= p.through && InHold(f.holds[id].request, n)
    {
      OverlapsIff(f.holds[id].request, p);
    }
    hide Overlaps;
    hide InHold;
  }

  lemma NextIs(f: Fence, p: Plan)
    requires TileLaw(f)
    ensures p.from == Frontier(f.operations) + 1 <==> NextInLine(f, p)
  {
    FrontierBounds(f.operations);
    hide Frontier;
    hide OneFence;
    if NextInLine(f, p) {
      var ops, k := f.operations, Frontier(f.operations);
      assert Covered(ops, k) <==> 1 <= k <= p.from - 1;
      assert Covered(ops, k) <==> 1 <= k <= k;
      assert Covered(ops, p.from - 1) <==> 1 <= p.from - 1 <= k;
      assert Covered(ops, p.from - 1) <==> 1 <= p.from - 1 <= p.from - 1;
    }
  }

  // ---------------------------------------------------------------- acceptance

  /** Under the lock, an operation is added exactly when its plan is new and acceptable now; it is that plan, under
      way, and nothing else changes. */
  lemma AcceptIff(f: Fence, w: Id, archiveOk: bool)
    requires TileLaw(f) && WorkerLaw(f) && HoldsHaveRanges(f)
    ensures var r := Accept(f, w, archiveOk);
            && (r.Done? && r.fence != f <==>
                  && w in f.gathered && archiveOk && Acceptable(f, f.gathered[w].0, f.gathered[w].1)
                  && FindOperation(f.operations, f.gathered[w].0.operation).None?)
            && (r.Done? && r.fence != f ==>
                  var op := Operation(f.gathered[w].0, Accepted, ByAcceptance, None);
                  r.fence == f.(operations := f.operations + [op]))
  {
    if w in f.gathered {
      var p := f.gathered[w].0;
      UnheldIs(f, p);
      NextIs(f, p);
      assert AnyUnresolved(f) <==> !NothingUnderWay(f);
    }
    hide TileLaw;
    hide FindOperation;
    hide Frontier;
    hide HoldBlocks;
    hide AnyUnresolved;
    hide Unheld;
    hide NextInLine;
    hide NothingUnderWay;
    hide OpsGrow;
  }

  /** Whatever the step: an operation that comes under way was acceptable at that moment, with the proofs somebody
      gathered for it. */
  lemma StepAcceptsOnlyAcceptable(f: Fence, op: Op, i: nat)
    requires TileLaw(f) && WorkerLaw(f) && HoldsHaveRanges(f)
    requires |f.operations| <= i < |Step(f, op).operations| && Unresolved(Step(f, op).operations[i])
    ensures op.AcceptBy? && op.worker in f.gathered && Step(f, op).operations[i].plan == f.gathered[op.worker].0
    ensures Acceptable(f, Step(f, op).operations[i].plan, f.gathered[op.worker].1)
  {
    hide TileLaw;
    hide WorkerLaw;
    hide HoldsHaveRanges;
    hide Acceptable;
    hide FindOperation;
    hide Fenced;
    hide Settle;
    hide OpsGrow;
    if op.AcceptBy? { AcceptIff(f, op.worker, op.archiveOk); }
    hide Accept;
  }

  lemma StepKeepsRanges(f: Fence, op: Op)
    requires HoldsHaveRanges(f)
    ensures HoldsHaveRanges(Step(f, op))
  {
    hide FindOperation;
    hide Fenced;
    hide Accept;
    hide RequestAbort;
    hide OpsGrow;
  }

  lemma {:induction false} RunKeepsRanges(ops: seq<Op>)
    ensures HoldsHaveRanges(Run(EMPTY, ops))
  {
    hide Step;
    if |ops| > 0 {
      RunKeepsRanges(ops[..|ops| - 1]);
      StepKeepsRanges(Run(EMPTY, ops[..|ops| - 1]), ops[|ops| - 1]);
    }
  }

  /** In every run, nothing is retired that was not acceptable when it was accepted. */
  lemma RunAcceptsOnlyAcceptable(ops: seq<Op>, op: Op, i: nat)
    requires |Run(EMPTY, ops).operations| <= i < |Step(Run(EMPTY, ops), op).operations|
    requires Unresolved(Step(Run(EMPTY, ops), op).operations[i])
    ensures var f := Run(EMPTY, ops);
            && op.AcceptBy? && op.worker in f.gathered && Step(f, op).operations[i].plan == f.gathered[op.worker].0
            && Acceptable(f, f.gathered[op.worker].0, f.gathered[op.worker].1)
  {
    hide Step;
    RunKeepsFence(ops);
    RunKeepsRanges(ops);
    hide Run;
    hide Acceptable;
    hide TileLaw;
    hide WorkerLaw;
    StepAcceptsOnlyAcceptable(Run(EMPTY, ops), op, i);
  }

  // ---------------------------------------------------------------- revocation

  /** The clearance is revoked, and since `n` no operation under it was accepted. */
  ghost predicate Barred(f: Fence, id: Id, n: nat) {
    && id in f.clearances && f.clearances[id].revoked && n <= |f.operations|
    && forall i :: n <= i < |f.operations| && f.operations[i].plan.clearance == id ==>
         f.operations[i].origin.CancelledBeforeAcceptance?
  }

  lemma StepKeepsBarred(f: Fence, op: Op, id: Id, n: nat)
    requires Barred(f, id, n)
    ensures Barred(Step(f, op), id, n)
  {
    hide FindOperation;
    hide Frontier;
    hide Fenced;
    hide HoldBlocks;
    hide AnyUnresolved;
    hide ProofsValid;
    hide Settle;
  }

  /** Once a clearance is revoked no run accepts an operation under it again. */
  lemma {:induction false} RevokedForGood(f: Fence, ops: seq<Op>, id: Id)
    requires id in f.clearances && f.clearances[id].revoked
    ensures Barred(Run(f, ops), id, |f.operations|)
  {
    hide Step;
    if |ops| > 0 {
      RevokedForGood(f, ops[..|ops| - 1], id);
      StepKeepsBarred(Run(f, ops[..|ops| - 1]), ops[|ops| - 1], id, |f.operations|);
    }
  }

  // ---------------------------------------------------------------- outcomes and holds

  /** An operation's outcome is what its receipt says; one canceled before acceptance has none and was never active. */
  predicate OutcomeOk(op: Operation) {
    && (op.receipt.Some? ==> op.status == if op.receipt.value.completed then Completed else AbortedOp)
    && (op.status.Completed? ==> op.receipt.Some?)
    && (op.origin.CancelledBeforeAcceptance? ==> op.status.AbortedOp? && op.receipt.None?)
  }

  ghost predicate OutcomesOk(f: Fence) {
    forall i :: 0 <= i < |f.operations| ==> OutcomeOk(f.operations[i])
  }

  /** Receipts, once there, stay. */
  ghost predicate ReceiptsKept(a: seq<Operation>, b: seq<Operation>) {
    |a| <= |b| && forall i :: 0 <= i < |a| && a[i].receipt.Some? ==> b[i] == a[i]
  }

  lemma StepKeepsOutcomes(f: Fence, op: Op)
    requires OutcomesOk(f) && WorkerLaw(f)
    ensures OutcomesOk(Step(f, op)) && ReceiptsKept(f.operations, Step(f, op).operations)
  {
    hide Frontier;
    hide Fenced;
    hide HoldBlocks;
    hide AnyUnresolved;
    hide ProofsValid;
    hide Settle;
    hide OpsGrow;
  }

  /** In every reachable state outcomes match receipts. */
  lemma {:induction false} RunKeepsOutcomes(ops: seq<Op>)
    ensures OutcomesOk(Run(EMPTY, ops))
  {
    hide Step;
    if |ops| > 0 {
      RunKeepsOutcomes(ops[..|ops| - 1]);
      RunKeepsFence(ops[..|ops| - 1]);
      StepKeepsOutcomes(Run(EMPTY, ops[..|ops| - 1]), ops[|ops| - 1]);
    }
  }

  /** What a resolution does to the holds: those that waited for the fence take the status they waited for. */
  lemma ResolveSettlesHolds(f: Fence, w: Id)
    ensures var r := Resolve(f, w);
            r.Done? && r.fence != f ==>
              && r.fence.holds.Keys == f.holds.Keys
              && forall id :: id in f.holds ==>
                   && r.fence.holds[id].request == f.holds[id].request
                   && r.fence.holds[id].status
                      == (if f.holds[id].status.PendingFenced? then Held
                          else if f.holds[id].status.ReleasePending? then Released else f.holds[id].status)
  {
    hide OpsGrow;
  }

  /** A new hold is in force at once unless a number of it is being retired, and then it waits; releasing likewise. */
  lemma HoldIff(f: Fence, id: Id, h: HoldRequest)
    ensures var r := PutHold(f, id, h);
            && (r.Done? <==> (ValidRange(h.from, h.through) || (h.from == 0 && h.through == 0))
                             && (id in f.holds ==> f.holds[id].request == h))
            && (r.Done? && id !in f.holds ==>
                  r.fence == f.(holds := f.holds[id := Hold(h, if Fenced(f, h) then PendingFenced else Held)]))
            && (r.Done? && id in f.holds ==> r.fence == f)
    ensures var r := ReleaseHold(f, id);
            && (r.Done? <==> id in f.holds)
            && (r.Done? ==>
                  r.fence == f.(holds := f.holds[id := f.holds[id].(status :=
                    if f.holds[id].status.Released? || !Fenced(f, f.holds[id].request)
                    then Released else ReleasePending)]))
  {
    hide Fenced;
    assert id in f.holds && f.holds[id].status.Released? ==> f.holds[id := f.holds[id].(status := Released)] == f.holds;
  }

  /** While a hold is in force none of its sequence numbers is retired, whatever follows. */
  lemma HeldNumbersStay(before: seq<Op>, after: seq<Op>, id: Id, n: int)
    requires id in Run(EMPTY, before).holds && Run(EMPTY, before).holds[id].status.Held?
    requires forall i :: 0 <= i < |after| ==> after[i] != HoldReleased(id)
    requires InHold(Run(EMPTY, before).holds[id].request, n)
    ensures Covered(Run(EMPTY, before + after).operations, n) ==> Covered(Run(EMPTY, before).operations, n)
  {
    hide Step;
    HeldIsNeverRetired(before, after, id);
    GrowsOver(before, after);
    RunKeepsRanges(before);
    hide Run;
    var h := Run(EMPTY, before).holds[id].request;
    var ops, t := Run(EMPTY, before).operations, Run(EMPTY, before + after).operations;
    if Covered(t, n) {
      var i :| 0 <= i < |t| && CompletedAt(t[i], n);
      OverlapsIff(h, t[i].plan);
      assert CompletedAt(ops[i], n);
    }
  }

  lemma {:induction false} GrowsOver(before: seq<Op>, after: seq<Op>)
    ensures OpsGrow(Run(EMPTY, before).operations, Run(EMPTY, before + after).operations)
  {
    hide Step;
    if |after| == 0 {
      assert before + after == before;
    } else {
      var n := |after| - 1;
      assert (before + after)[..|before| + n] == before + after[..n];
      GrowsOver(before, after[..n]);
      StepGrows(Run(EMPTY, before + after[..n]), after[n]);
    }
  }

  lemma StepGrows(f: Fence, op: Op)
    ensures OpsGrow(f.operations, Step(f, op).operations)
  {
    hide Accept;
    hide RequestAbort;
    hide Resolve;
    hide FindOperation;
    hide Fenced;
  }

  // ---------------------------------------------------------------- clearances and policies

  /** A clearance is put on file, standing, exactly for a proper range, a known policy and closed periods, or again
      as it was; revoking is for good. */
  lemma ClearanceIff(f: Fence, id: Id, c: Clearance, periodsClosed: bool)
    ensures var r := PutClearance(f, id, c, periodsClosed);
            && (r.Done? <==>
                  && 0 < c.from <= c.through <= MAX_INT64 && c.policy in f.policies
                  && (if id in f.clearances then f.clearances[id] == c.(revoked := f.clearances[id].revoked)
                      else periodsClosed))
            && (r.Done? && id in f.clearances ==> r.fence == f)
            && (r.Done? && id !in f.clearances ==>
                  r.fence == f.(clearances := f.clearances[id := c.(revoked := false)]))
    ensures var r := RevokeClearance(f, id);
            && (r.Done? <==> id in f.clearances)
            && (r.Done? ==> r.fence == f.(clearances := f.clearances[id := f.clearances[id].(revoked := true)]))
  { }

  /** Activating needs a recovery approval and leaves exactly that policy active; deactivating touches it alone. */
  lemma ActivationIff(f: Fence, id: Id, active: bool)
    ensures var r := SetActive(f, id, active);
            && (r.Done? <==> id in f.policies && (active ==> f.policies[id].recovery.Some?))
            && (r.Done? ==>
                  && r.fence == f.(policies := r.fence.policies) && r.fence.policies.Keys == f.policies.Keys
                  && (forall k :: k in f.policies ==>
                        r.fence.policies[k] == f.policies[k].(active := r.fence.policies[k].active))
                  && r.fence.policies[id].active == active
                  && (active && !f.policies[id].active ==>
                        forall k :: k in f.policies && k != id ==> !r.fence.policies[k].active)
                  && (!active ==> forall k :: k in f.policies && k != id ==> r.fence.policies[k] == f.policies[k]))
  { }

  // ---------------------------------------------------------------- requests and aborts

  /** Outside the lock a request gathers proofs exactly for a new plan of an active policy with one answer per
      consumer; a known plan is answered as it is. */
  lemma GatherIff(f: Fence, w: Id, p: Plan, answers: seq<Proof>, archiveOk: bool)
    ensures var r := Gather(f, w, p, answers, archiveOk); var k := FindOperation(f.operations, p.operation);
            && (r.Done? <==>
                  && 0 < p.from <= p.through <= MAX_INT64
                  && (if k.Some? then f.operations[k.value].plan == p
                      else && p.policy in f.policies && f.policies[p.policy].active && archiveOk
                           && |answers| == |f.policies[p.policy].spec.consumers|))
            && (r.Done? && k.Some? ==> r.fence == f)
            && (r.Done? && k.None? ==> r.fence == f.(gathered := f.gathered[w := (p, answers)]))
  {
    hide FindOperation;
  }

  /** An abort of an unknown plan binds a cancellation; of the known plan, under way, it is requested and the fence
      stays; of a different plan under the same name it is refused; otherwise nothing changes. */
  lemma AbortIff(f: Fence, p: Plan)
    ensures var r := RequestAbort(f, p); var k := FindOperation(f.operations, p.operation);
            && (r.Done? <==> 0 < p.from <= p.through <= MAX_INT64 && (k.Some? ==> f.operations[k.value].plan == p))
            && (r.Done? && k.None? ==>
                  r.fence == f.(operations := f.operations + [Operation(p, AbortedOp, CancelledBeforeAcceptance,
                                                                        None)]))
            && (r.Done? && k.Some? && f.operations[k.value].status.Accepted? ==>
                  r.fence == f.(operations :=
                    f.operations[k.value := f.operations[k.value].(status := AbortRequested)]))
            && (r.Done? && k.Some? && !f.operations[k.value].status.Accepted? ==> r.fence == f)
  {
    hide FindOperation;
    hide OpsGrow;
  }

  /** A policy's terms and its recovery approval, once given, are not changed. */
  lemma PolicyIff(f: Fence, id: Id, spec: PolicySpec, ref: Id)
    ensures var r := PutPolicy(f, id, spec);
            && (r.Done? <==> (id in f.policies ==> f.policies[id].spec == spec))
            && (r.Done? && id in f.policies ==> r.fence == f)
            && (r.Done? && id !in f.policies ==> r.fence == f.(policies := f.policies[id := Policy(spec, None, false)]))
    ensures var r := ApproveRecovery(f, id, ref);
            && (r.Done?
                <==> id in f.policies && (f.policies[id].recovery.Some? ==> f.policies[id].recovery.value == ref))
            && (r.Done? ==> r.fence == f.(policies := f.policies[id := f.policies[id].(recovery := Some(ref))]))
  {
    assert id in f.policies ==> f.policies[id := f.policies[id]] == f.policies;
  }

  /** An observed outcome is recorded once, with the status it stands for; the same one may be repeated, another is
      refused. */
  lemma ResolveIff(f: Fence, w: Id)
    requires w in f.observed && f.observed[w].0 < |f.operations|
    ensures var r := Resolve(f, w); var (k, receipt) := f.observed[w]; var op := f.operations[k];
            && (r.Done? <==> op.receipt.None? || op.receipt.value == receipt)
            && (r.Done? && op.receipt.Some? ==> r.fence == f)
            && (r.Done? && op.receipt.None? ==>
                  && r.fence == f.(operations := r.fence.operations, holds := r.fence.holds)
                  && r.fence.operations
                     == f.operations[k := op.(receipt := Some(receipt),
                                              status := if receipt.completed then Completed else AbortedOp)])
  {
    hide Settle;
    hide OpsGrow;
  }
}
