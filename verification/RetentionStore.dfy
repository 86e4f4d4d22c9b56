/** The raw-retention store as the object it is: each method is one transaction on the rows of a scope, early
    returns roll back, and the object keeps FenceLaw from construction on. */
module RetentionStore {
  import opened Common
  import opened RetentionFence

  /** The call did what the step does, and reported what the step reports. */
  ghost predicate Did(before: Fence, op: Op, after: Fence, error: Option<RetentionError>) {
    && after == Step(before, op)
    && error == (if Attempt(before, op).Done? then None else Some(Attempt(before, op).error))
  }

  class Store {
    var policies: map<Id, Policy>
    var clearances: map<Id, Clearance>
    var holds: map<Id, Hold>
    var operations: seq<Operation>
    /** Calls between their two phases: local variables of the callers. */
    var gathered: map<Id, (Plan, seq<Proof>)>
    var observed: map<Id, (nat, Receipt)>

    ghost function View(): Fence
      reads this
    {
      Fence(policies, clearances, holds, operations, gathered, observed)
    }

    ghost predicate Valid()
      reads this
    {
      FenceLaw(View())
    }

    constructor ()
      ensures Valid() && View() == EMPTY
    {
      policies, clearances, holds, operations, gathered, observed := map[], map[], map[], [], map[], map[];
      new;
      assert Run(EMPTY, []) == EMPTY;
      RunKeepsFence([]);
    }

    method SetActive(id: Id, active: bool) returns (error: Option<RetentionError>)
      requires Valid()
      modifies this
      ensures Valid() && Did(old(View()), ActiveSet(id, active), View(), error)
    {
      StepKeepsFence(View(), ActiveSet(id, active));
      hide FenceLaw;
      if id !in policies { return Some(NotFound); }
      if active && policies[id].recovery.None? { return Some(Blocked); }
      if policies[id].active != active {
        var p := policies[id];
        if active { policies := map k | k in policies :: policies[k].(active := false); }
        policies := policies[id := p.(active := active)];
      }
      return None;
    }

    method PutHold(id: Id, h: HoldRequest) returns (error: Option<RetentionError>)
      requires Valid()
      modifies this`holds
      ensures Valid() && Did(old(View()), HoldPut(id, h), View(), error)
    {
      StepKeepsFence(View(), HoldPut(id, h));
      hide FenceLaw;
      if !ValidRange(h.from, h.through) && !(h.from == 0 && h.through == 0) { return Some(Invalid); }
      if id in holds {
        if holds[id].request != h { return Some(Conflict); }
        return None;
      }
      var status := Held;
      var fenced := OverlappingFence(h);
      if fenced { status := PendingFenced; }
      holds := holds[id := Hold(h, status)];
      return None;
    }

    method OverlappingFence(h: HoldRequest) returns (fenced: bool)
      ensures fenced == Fenced(View(), h)
    {
      fenced := exists i :: 0 <= i < |operations| && Unresolved(operations[i]) && Overlaps(h, operations[i].plan);
    }

    method ReleaseHold(id: Id) returns (error: Option<RetentionError>)
      requires Valid()
      modifies this`holds
      ensures Valid() && Did(old(View()), HoldReleased(id), View(), error)
    {
      StepKeepsFence(View(), HoldReleased(id));
      hide FenceLaw;
      if id !in holds { return Some(NotFound); }
      var h := holds[id];
      var status := Released;
      var fenced := OverlappingFence(h.request);
      if fenced { status := ReleasePending; }
      if h.status.Released? { return None; }
      holds := holds[id := h.(status := status)];
      return None;
    }

    /** The phase outside the lock: read the policy, ask its consumers. */
    method GatherEvidence(
      worker: Id, plan: Plan, answers: seq<Proof>, archiveOk: bool) returns (error: Option<RetentionError>)
      requires Valid()
      modifies this`gathered
      ensures Valid() && Did(old(View()), GatherFor(worker, plan, answers, archiveOk), View(), error)
    {
      StepKeepsFence(View(), GatherFor(worker, plan, answers, archiveOk));
      hide FenceLaw;
      if !ValidRange(plan.from, plan.through) { return Some(Invalid); }
      var prior := FindOperation(operations, plan.operation);
      if prior.Some? {
        if operations[prior.value].plan != plan { return Some(Conflict); }
        return None;
      }
      if plan.policy !in policies { return Some(NotFound); }
      var policy := policies[plan.policy];
      if !policy.active || !archiveOk || |answers| != |policy.spec.consumers| { return Some(Blocked); }
      gathered := gathered[worker := (plan, answers)];
      return None;
    }

    /** Proof i is checked against consumer i of the policy read again inside the lock; the law keeps that
        index in range however long ago the proofs were gathered. */
    method CheckProofs(worker: Id) returns (ok: bool)
      requires Valid() && worker in gathered && gathered[worker].0.policy in policies
      ensures ok == ProofsValid(gathered[worker].1, policies[gathered[worker].0.policy].spec.consumers)
    {
      var (p, proofs) := gathered[worker];
      var consumers := policies[p.policy].spec.consumers;
      assert PolicyLaw(View());
      hide FenceLaw;
      for i := 0 to |proofs|
        invariant forall j :: 0 <= j < i ==> proofs[j].valid && proofs[j].consumer == consumers[j]
      {
        if !proofs[i].valid || proofs[i].consumer != consumers[i] { return false; }
      }
      return true;
    }

    /** The phase under the lock of RequestOperation. */
    method AcceptGathered(worker: Id, archiveOk: bool) returns (error: Option<RetentionError>)
      requires Valid()
      modifies this`operations
      ensures Valid() && Did(old(View()), AcceptBy(worker, archiveOk), View(), error)
    {
      StepKeepsFence(View(), AcceptBy(worker, archiveOk));
      hide FenceLaw;
      hide Frontier;
      if worker !in gathered { return Some(NotFound); }
      var p := gathered[worker].0;
      var prior := FindOperation(operations, p.operation);
      if prior.Some? {
        if operations[prior.value].plan != p { return Some(Conflict); }
        return None;
      }
      if p.policy !in policies { return Some(NotFound); }
      var policy := policies[p.policy];
      if !policy.active || policy.recovery.None? { return Some(Blocked); }
      if !archiveOk { return Some(Blocked); }
      var proven := CheckProofs(worker);
      if !proven { return Some(Blocked); }
      if p.clearance !in clearances { return Some(NotFound); }
      var c := clearances[p.clearance];
      if c.revoked || c.policy != p.policy || c.from > p.from || c.through < p.through { return Some(Blocked); }
      var held := exists id :: id in holds && !holds[id].status.Released? && Overlaps(holds[id].request, p);
      var busy := exists i :: 0 <= i < |operations| && Unresolved(operations[i]);
      if held || busy { return Some(Blocked); }
      if p.from != Frontier(operations) + 1 { return Some(Blocked); }
      operations := operations + [Operation(p, Accepted, ByAcceptance, None)];
      return None;
    }

    method RequestAbortPlan(p: Plan) returns (error: Option<RetentionError>)
      requires Valid()
      modifies this`operations
      ensures Valid() && Did(old(View()), AbortPlan(p), View(), error)
    {
      StepKeepsFence(View(), AbortPlan(p));
      hide FenceLaw;
      if !ValidRange(p.from, p.through) { return Some(Invalid); }
      var prior := FindOperation(operations, p.operation);
      if prior.None? {
        operations := operations + [Operation(p, AbortedOp, CancelledBeforeAcceptance, None)];
        return None;
      }
      var op := operations[prior.value];
      if op.plan != p { return Some(Conflict); }
      if op.status.Accepted? {
        operations := operations[prior.value := op.(status := AbortRequested)];
      }
      return None;
    }

    /** The phase of Resolve outside the lock. */
    method ObserveTerminal(worker: Id, id: Id, receipt: Receipt) returns (error: Option<RetentionError>)
      requires Valid()
      modifies this`observed
      ensures Valid() && Did(old(View()), ObserveFor(worker, id, receipt), View(), error)
    {
      StepKeepsFence(View(), ObserveFor(worker, id, receipt));
      hide FenceLaw;
      var k := FindOperation(operations, id);
      if k.None? { return Some(NotFound); }
      if Unresolved(operations[k.value]) { observed := observed[worker := (k.value, receipt)]; }
      return None;
    }

    /** The phase of Resolve under the lock: status and receipt, then the waiting holds. */
    method ResolveObserved(worker: Id) returns (error: Option<RetentionError>)
      requires Valid()
      modifies this`operations, this`holds
      ensures Valid() && Did(old(View()), ResolveBy(worker), View(), error)
    {
      StepKeepsFence(View(), ResolveBy(worker));
      hide FenceLaw;
      if worker !in observed || observed[worker].0 >= |operations| { return Some(NotFound); }
      var (k, receipt) := observed[worker];
      var op := operations[k];
      if op.receipt.Some? {
        if op.receipt.value != receipt { return Some(Conflict); }
        return None;
      }
      var status := Completed;
      if !receipt.completed { status := AbortedOp; }
      operations := operations[k := op.(status := status, receipt := Some(receipt))];
      holds := Settle(holds);
      return None;
    }
  }
}
