/** The raw-retention authority of one scope: policies, clearances, holds and retirement operations. Every
    write runs under the scope lock. A request gathers evidence outside the lock and re-checks inside it;
    so does a resolution. Each is two steps here, with any other steps in between. */
module RetentionFence {
  import opened Common

  type Id = string
  datatype RetentionError = Invalid | Conflict | Blocked | NotFound
  datatype Outcome = Done(fence: Fence) | Fail(error: RetentionError)

  datatype PolicySpec = PolicySpec(consumers: seq<Id>)
  datatype Policy = Policy(spec: PolicySpec, recovery: Option<Id>, active: bool)
  datatype Clearance = Clearance(policy: Id, from: int, through: int, revoked: bool)

  datatype HoldStatus = Held | PendingFenced | ReleasePending | Released
  datatype HoldRequest = HoldRequest(from: int, through: int, reason: Id)
  datatype Hold = Hold(request: HoldRequest, status: HoldStatus)

  /** A consumer's proof; `valid` is every check of validProof except the consumer identity. */
  datatype Proof = Proof(consumer: Id, valid: bool)
  datatype Plan = Plan(operation: Id, policy: Id, clearance: Id, from: int, through: int, binding: Id)
  datatype OperationStatus = Accepted | AbortRequested | Completed | AbortedOp
  datatype Origin = ByAcceptance | CancelledBeforeAcceptance
  datatype Receipt = Receipt(completed: bool, digest: Id)
  datatype Operation = Operation(plan: Plan, status: OperationStatus, origin: Origin, receipt: Option<Receipt>)

  /** `gathered` and `observed` are the workers between their two phases. */
  datatype Fence = Fence(
    policies: map<Id, Policy>, clearances: map<Id, Clearance>, holds: map<Id, Hold>, operations: seq<Operation>,
    gathered: map<Id, (Plan, seq<Proof>)>, observed: map<Id, (nat, Receipt)>)

  predicate ValidRange(first: int, last: int) { 0 < first <= last <= MAX_INT64 }

  predicate Unresolved(op: Operation) { op.status.Accepted? || op.status.AbortRequested? }

  /** A hold from sequence 0 covers the whole store. */
  predicate Overlaps(h: HoldRequest, p: Plan) { h.from == 0 || (p.from <= h.through && p.through >= h.from) }

  predicate Fenced(f: Fence, h: HoldRequest) {
    exists i :: 0 <= i < |f.operations| && Unresolved(f.operations[i]) && Overlaps(h, f.operations[i].plan)
  }

  /** The largest retired sequence. */
  function Frontier(ops: seq<Operation>): int {
    if |ops| == 0 then 0
    else
      var last := ops[|ops| - 1];
      var rest := Frontier(ops[..|ops| - 1]);
      if last.status.Completed? && last.plan.through > rest then last.plan.through else rest
  }

  function FindOperation(ops: seq<Operation>, id: Id): (r: Option<nat>)
    ensures r.Some? ==> r.value < |ops| && ops[r.value].plan.operation == id
    ensures r.None? ==> forall i :: 0 <= i < |ops| ==> ops[i].plan.operation != id
  {
    if |ops| == 0 then None
    else if ops[|ops| - 1].plan.operation == id then Some(|ops| - 1)
    else FindOperation(ops[..|ops| - 1], id)
  }

  // ---------------------------------------------------------------- policies, clearances and holds

  function PutPolicy(f: Fence, id: Id, spec: PolicySpec): Outcome {
    if id in f.policies then if f.policies[id].spec != spec then Fail(Conflict) else Done(f)
    else Done(f.(policies := f.policies[id := Policy(spec, None, false)]))
  }

  function ApproveRecovery(f: Fence, id: Id, ref: Id): Outcome {
    if id !in f.policies then Fail(NotFound)
    else
      var p := f.policies[id];
      if p.recovery.Some? && p.recovery.value != ref then Fail(Conflict)
      else if p.recovery.Some? then Done(f)
      else Done(f.(policies := f.policies[id := p.(recovery := Some(ref))]))
  }

  function SetActive(f: Fence, id: Id, active: bool): Outcome {
    if id !in f.policies then Fail(NotFound)
    else
      var p := f.policies[id];
      if active && p.recovery.None? then Fail(Blocked)
      else if p.active == active then Done(f)
      else
        var cleared := if active then map k | k in f.policies :: f.policies[k].(active := false) else f.policies;
        Done(f.(policies := cleared[id := p.(active := active)]))
  }

  function PutClearance(f: Fence, id: Id, c: Clearance, periodsClosed: bool): Outcome {
    if !ValidRange(c.from, c.through) then Fail(Invalid)
    else if c.policy !in f.policies then Fail(NotFound)
    else if id in f.clearances then
      if f.clearances[id].(revoked := false) != c.(revoked := false) then Fail(Conflict) else Done(f)
    else if !periodsClosed then Fail(Blocked)
    else Done(f.(clearances := f.clearances[id := c.(revoked := false)]))
  }

  function RevokeClearance(f: Fence, id: Id): Outcome {
    if id !in f.clearances then Fail(NotFound)
    else Done(f.(clearances := f.clearances[id := f.clearances[id].(revoked := true)]))
  }

  function PutHold(f: Fence, id: Id, h: HoldRequest): Outcome {
    if !ValidRange(h.from, h.through) && !(h.from == 0 && h.through == 0) then Fail(Invalid)
    else if id in f.holds then if f.holds[id].request != h then Fail(Conflict) else Done(f)
    else Done(f.(holds := f.holds[id := Hold(h, if Fenced(f, h) then PendingFenced else Held)]))
  }

  function ReleaseHold(f: Fence, id: Id): Outcome {
    if id !in f.holds then Fail(NotFound)
    else
      var h := f.holds[id];
      if h.status.Released? then Done(f)
      else Done(f.(holds := f.holds[id := h.(status := if Fenced(f, h.request) then ReleasePending else Released)]))
  }

  // ---------------------------------------------------------------- retirement operations

  /** Operations are never removed and keep their origin. */
  predicate OpsGrow(ops: seq<Operation>, t: seq<Operation>) {
    |ops| <= |t| && forall i :: 0 <= i < |ops| ==> t[i].plan == ops[i].plan && t[i].origin == ops[i].origin
  }

  /** A step that changes operations and holds only. */
  predicate Frame(f: Fence, r: Outcome) {
    r.Done? ==>
      OpsGrow(f.operations, r.fence.operations)
      && r.fence == f.(operations := r.fence.operations, holds := r.fence.holds)
  }

  /** Outside the lock: the policy looks active, and every consumer it requires answers. */
  function Gather(f: Fence, worker: Id, plan: Plan, answers: seq<Proof>, archiveOk: bool): Outcome {
    if !ValidRange(plan.from, plan.through) then Fail(Invalid)
    else
      var prior := FindOperation(f.operations, plan.operation);
      if prior.Some? then if f.operations[prior.value].plan != plan then Fail(Conflict) else Done(f)
      else if plan.policy !in f.policies then Fail(NotFound)
      else if !f.policies[plan.policy].active || !archiveOk || |answers| != |f.policies[plan.policy].spec.consumers|
      then Fail(Blocked)
      else Done(f.(gathered := f.gathered[worker := (plan, answers)]))
  }

  predicate ProofsValid(proofs: seq<Proof>, consumers: seq<Id>) {
    |proofs| == |consumers| && forall i :: 0 <= i < |proofs| ==> proofs[i].valid && proofs[i].consumer == consumers[i]
  }

  predicate HoldBlocks(f: Fence, p: Plan) {
    exists id :: id in f.holds && !f.holds[id].status.Released? && Overlaps(f.holds[id].request, p)
  }

  predicate AnyUnresolved(f: Fence) {
    exists i :: 0 <= i < |f.operations| && Unresolved(f.operations[i])
  }

  /** Inside the lock: everything is read again before the fence is raised. */
  function Accept(f: Fence, worker: Id, archiveOk: bool): (r: Outcome)
    ensures Frame(f, r)
    ensures r.Done? ==> r.fence.holds == f.holds
  {
    if worker !in f.gathered then Fail(NotFound)
    else
      var (p, proofs) := f.gathered[worker];
      var prior := FindOperation(f.operations, p.operation);
      if prior.Some? then if f.operations[prior.value].plan != p then Fail(Conflict) else Done(f)
      else if p.policy !in f.policies then Fail(NotFound)
      else if !f.policies[p.policy].active || f.policies[p.policy].recovery.None? then Fail(Blocked)
      else if !archiveOk || !ProofsValid(proofs, f.policies[p.policy].spec.consumers) then Fail(Blocked)
      else if p.clearance !in f.clearances then Fail(NotFound)
      else
        var c := f.clearances[p.clearance];
        if c.revoked || c.policy != p.policy || c.from > p.from || c.through < p.through then Fail(Blocked)
        else if HoldBlocks(f, p) || AnyUnresolved(f) then Fail(Blocked)
        else if p.from != Frontier(f.operations) + 1 then Fail(Blocked)
        else Done(f.(operations := f.operations + [Operation(p, Accepted, ByAcceptance, None)]))
  }

  function RequestAbort(f: Fence, p: Plan): (r: Outcome)
    ensures Frame(f, r)
    ensures r.Done? ==> r.fence.holds == f.holds
  {
    if !ValidRange(p.from, p.through) then Fail(Invalid)
    else
      var prior := FindOperation(f.operations, p.operation);
      if prior.None?
      then Done(f.(operations := f.operations + [Operation(p, AbortedOp, CancelledBeforeAcceptance, None)]))
      else
        var op := f.operations[prior.value];
        if op.plan != p then Fail(Conflict)
        else if !op.status.Accepted? then Done(f)
        else Done(f.(operations := f.operations[prior.value := op.(status := AbortRequested)]))
  }

  /** Outside the lock: an unresolved operation, and the terminal receipt Logger reports for it. */
  function Observe(f: Fence, worker: Id, id: Id, receipt: Receipt): Outcome {
    var k := FindOperation(f.operations, id);
    if k.None? then Fail(NotFound)
    else if !Unresolved(f.operations[k.value]) then Done(f)
    else Done(f.(observed := f.observed[worker := (k.value, receipt)]))
  }

  /** Holds that waited for the fence take their final status. */
  function Settle(holds: map<Id, Hold>): map<Id, Hold> {
    map id | id in holds ::
      match holds[id].status
      case PendingFenced => holds[id].(status := Held)
      case ReleasePending => holds[id].(status := Released)
      case _ => holds[id]
  }

  /** Inside the lock: first receipt wins, a repeated one must agree. */
  function Resolve(f: Fence, worker: Id): (r: Outcome)
    ensures Frame(f, r)
  {
    if worker !in f.observed || f.observed[worker].0 >= |f.operations| then Fail(NotFound)
    else
      var (k, receipt) := f.observed[worker];
      var op := f.operations[k];
      if op.receipt.Some? then if op.receipt.value != receipt then Fail(Conflict) else Done(f)
      else
        var status := if receipt.completed then Completed else AbortedOp;
        Done(f.(operations := f.operations[k := op.(status := status, receipt := Some(receipt))],
                holds := Settle(f.holds)))
  }

  datatype Op =
    | PolicyPut(id: Id, spec: PolicySpec) | RecoveryApproved(id: Id, ref: Id) | ActiveSet(id: Id, active: bool)
    | ClearancePut(id: Id, clearance: Clearance, periodsClosed: bool) | ClearanceRevoked(id: Id)
    | HoldPut(id: Id, request: HoldRequest) | HoldReleased(id: Id)
    | GatherFor(worker: Id, plan: Plan, answers: seq<Proof>, archiveOk: bool) | AcceptBy(worker: Id, archiveOk: bool)
    | AbortPlan(plan: Plan)
    | ObserveFor(worker: Id, id: Id, receipt: Receipt) | ResolveBy(worker: Id)
    | Crash(worker: Id)

  function Attempt(f: Fence, op: Op): Outcome {
    match op
    case PolicyPut(id, spec) => PutPolicy(f, id, spec)
    case RecoveryApproved(id, ref) => ApproveRecovery(f, id, ref)
    case ActiveSet(id, active) => SetActive(f, id, active)
    case ClearancePut(id, c, closed) => PutClearance(f, id, c, closed)
    case ClearanceRevoked(id) => RevokeClearance(f, id)
    case HoldPut(id, h) => PutHold(f, id, h)
    case HoldReleased(id) => ReleaseHold(f, id)
    case GatherFor(w, p, answers, ok) => Gather(f, w, p, answers, ok)
    case AcceptBy(w, ok) => Accept(f, w, ok)
    case AbortPlan(p) => RequestAbort(f, p)
    case ObserveFor(w, id, receipt) => Observe(f, w, id, receipt)
    case ResolveBy(w) => Resolve(f, w)
    case Crash(w) => Done(f.(gathered := f.gathered - {w}, observed := f.observed - {w}))
  }

  function Step(f: Fence, op: Op): Fence {
    var r := Attempt(f, op);
    if r.Done? then r.fence else f
  }

  function Run(f: Fence, ops: seq<Op>): Fence {
    if |ops| == 0 then f else Step(Run(f, ops[..|ops| - 1]), ops[|ops| - 1])
  }

  const EMPTY: Fence := Fence(map[], map[], map[], [], map[], map[])

  // ---------------------------------------------------------------- tiling

  predicate CompletedAt(op: Operation, n: int) { op.status.Completed? && op.plan.from <= n <= op.plan.through }

  predicate Covered(ops: seq<Operation>, n: int) { exists i :: 0 <= i < |ops| && CompletedAt(ops[i], n) }

  predicate RangesValid(ops: seq<Operation>) {
    forall i :: 0 <= i < |ops| ==> ValidRange(ops[i].plan.from, ops[i].plan.through)
  }

  /** The retired sequence numbers are exactly 1..frontier. */
  ghost predicate CoversExactly(ops: seq<Operation>, frontier: int) {
    forall n :: Covered(ops, n) <==> 1 <= n <= frontier
  }

  /** No sequence number is retired twice. */
  ghost predicate Disjoint(ops: seq<Operation>) {
    forall i, j, n :: 0 <= i < |ops| && 0 <= j < |ops| && CompletedAt(ops[i], n) && CompletedAt(ops[j], n) ==> i == j
  }

  ghost predicate Tiles(ops: seq<Operation>, frontier: int) {
    RangesValid(ops) && CoversExactly(ops, frontier) && Disjoint(ops)
  }

  /** At most one operation is unresolved, it starts just past the frontier, and only it has no receipt. */
  ghost predicate OneFence(ops: seq<Operation>) {
    && (forall i, j :: 0 <= i < |ops| && 0 <= j < |ops| && Unresolved(ops[i]) && Unresolved(ops[j]) ==> i == j)
    && (forall i :: 0 <= i < |ops| && Unresolved(ops[i]) ==> ops[i].plan.from == Frontier(ops) + 1)
    && (forall i :: 0 <= i < |ops| ==> (ops[i].origin.ByAcceptance? && ops[i].receipt.None? <==> Unresolved(ops[i])))
  }

  /** Under the tiling the frontier function is the end of the tiling. */
  lemma {:induction false} FrontierBounds(ops: seq<Operation>)
    ensures 0 <= Frontier(ops)
    ensures forall i :: 0 <= i < |ops| && ops[i].status.Completed? ==> ops[i].plan.through <= Frontier(ops)
    ensures Frontier(ops) > 0 ==>
              exists i :: 0 <= i < |ops| && ops[i].status.Completed? && ops[i].plan.through == Frontier(ops)
  {
    if |ops| > 0 {
      FrontierBounds(ops[..|ops| - 1]);
      var n := |ops| - 1;
      if Frontier(ops) > 0 && Frontier(ops) == Frontier(ops[..n]) {
        var i :| 0 <= i < n && ops[..n][i].status.Completed? && ops[..n][i].plan.through == Frontier(ops);
        assert ops[i].status.Completed?;
      }
    }
  }

  /** Rows that are not completed do not count. */
  lemma {:induction false} FrontierIgnores(ops: seq<Operation>, k: nat, op: Operation)
    requires k < |ops| && !ops[k].status.Completed? && !op.status.Completed?
    ensures Frontier(ops[k := op]) == Frontier(ops)
  {
    var n := |ops| - 1;
    if k < n {
      FrontierIgnores(ops[..n], k, op);
      assert ops[k := op][..n] == ops[..n][k := op];
    } else {
      assert ops[k := op][..n] == ops[..n];
    }
  }

  lemma FrontierAppend(ops: seq<Operation>, op: Operation)
    requires !op.status.Completed?
    ensures Frontier(ops + [op]) == Frontier(ops)
  {
    assert (ops + [op])[..|ops|] == ops;
  }

  /** Completing an operation past the frontier moves the frontier to its end. */
  lemma {:induction false} FrontierAdvance(ops: seq<Operation>, k: nat, op: Operation)
    requires k < |ops| && !ops[k].status.Completed? && op.status.Completed? && op.plan.through > Frontier(ops)
    ensures Frontier(ops[k := op]) == op.plan.through
  {
    var n := |ops| - 1;
    if k < n {
      FrontierAdvance(ops[..n], k, op);
      assert ops[k := op][..n] == ops[..n][k := op];
    } else {
      assert ops[k := op][..n] == ops[..n];
    }
  }

  ghost predicate TileLaw(f: Fence) {
    Tiles(f.operations, Frontier(f.operations)) && OneFence(f.operations)
  }

  /** Observed operations are the accepted ones; gathered plans are in range. */
  ghost predicate WorkerLaw(f: Fence) {
    && (forall w :: w in f.observed ==>
          f.observed[w].0 < |f.operations| && f.operations[f.observed[w].0].origin.ByAcceptance?)
    && (forall w :: w in f.gathered ==> ValidRange(f.gathered[w].0.from, f.gathered[w].0.through))
  }

  /** Rows that agree on what is completed cover the same numbers. */
  lemma CoverOf(ops: seq<Operation>, t: seq<Operation>, n: int)
    requires |ops| <= |t|
    requires forall i :: 0 <= i < |ops| ==> (CompletedAt(t[i], n) <==> CompletedAt(ops[i], n))
    requires forall i :: |ops| <= i < |t| ==> !CompletedAt(t[i], n)
    ensures Covered(t, n) <==> Covered(ops, n)
  {
    if Covered(ops, n) {
      var i :| 0 <= i < |ops| && CompletedAt(ops[i], n);
      assert CompletedAt(t[i], n);
    }
  }

  lemma AppendTiles(ops: seq<Operation>, op: Operation)
    requires Tiles(ops, Frontier(ops)) && !op.status.Completed? && ValidRange(op.plan.from, op.plan.through)
    ensures Tiles(ops + [op], Frontier(ops + [op]))
  {
    hide Frontier;
    FrontierAppend(ops, op);
    var t := ops + [op];
    forall n ensures Covered(t, n) <==> Covered(ops, n) { CoverOf(ops, t, n); }
  }

  lemma ReplaceTiles(ops: seq<Operation>, k: nat, op: Operation)
    requires Tiles(ops, Frontier(ops)) && k < |ops| && !ops[k].status.Completed? && !op.status.Completed?
    requires op.plan == ops[k].plan
    ensures Tiles(ops[k := op], Frontier(ops[k := op]))
  {
    hide Frontier;
    FrontierIgnores(ops, k, op);
    var t := ops[k := op];
    forall n ensures Covered(t, n) <==> Covered(ops, n) { CoverOf(ops, t, n); }
  }

  lemma CompleteTiles(ops: seq<Operation>, k: nat, op: Operation)
    requires Tiles(ops, Frontier(ops)) && k < |ops| && !ops[k].status.Completed? && op.status.Completed?
    requires op.plan == ops[k].plan
    requires ops[k].plan.from == Frontier(ops) + 1
    ensures Tiles(ops[k := op], Frontier(ops[k := op]))
  {
    hide Frontier;
    FrontierBounds(ops);
    FrontierAdvance(ops, k, op);
    var t := ops[k := op];
    assert RangesValid(t);
    forall n ensures Covered(t, n) <==> 1 <= n <= op.plan.through { CoverAfter(ops, k, op, n); }
    DisjointAfter(ops, k, op);
  }

  lemma CoverAfter(ops: seq<Operation>, k: nat, op: Operation, n: int)
    requires CoversExactly(ops, op.plan.from - 1) && k < |ops| && !ops[k].status.Completed? && op.status.Completed?
    requires ValidRange(op.plan.from, op.plan.through)
    ensures Covered(ops[k := op], n) <==> 1 <= n <= op.plan.through
  {
    var t := ops[k := op];
    if CompletedAt(op, n) {
      assert CompletedAt(t[k], n);
    } else {
      CoverOf(ops, t, n);
    }
  }

  lemma DisjointAfter(ops: seq<Operation>, k: nat, op: Operation)
    requires CoversExactly(ops, op.plan.from - 1) && Disjoint(ops) && k < |ops| && !ops[k].status.Completed?
    ensures Disjoint(ops[k := op])
  {
    var t := ops[k := op];
    forall i, n | 0 <= i < |t| && CompletedAt(t[i], n) ensures i == k || n < op.plan.from {
      assert i != k ==> Covered(ops, n);
    }
  }

  lemma AcceptTiles(f: Fence, worker: Id, ok: bool)
    requires TileLaw(f) && WorkerLaw(f)
    ensures Accept(f, worker, ok).Done? ==> TileLaw(Accept(f, worker, ok).fence)
  {
    hide Tiles;
    hide Frontier;
    hide HoldBlocks;
    hide ProofsValid;
    var r := Accept(f, worker, ok);
    if r.Done? && r.fence != f {
      var op := Operation(f.gathered[worker].0, Accepted, ByAcceptance, None);
      assert r.fence.operations == f.operations + [op];
      FrontierAppend(f.operations, op);
      AppendTiles(f.operations, op);
    }
  }

  lemma AppendOneFence(ops: seq<Operation>, op: Operation)
    requires OneFence(ops) && !op.status.Completed? && !Unresolved(op) && !op.origin.ByAcceptance?
    ensures OneFence(ops + [op])
  {
    hide Frontier;
    FrontierAppend(ops, op);
  }

  lemma ReplaceOneFence(ops: seq<Operation>, k: nat, op: Operation)
    requires OneFence(ops) && k < |ops| && Unresolved(ops[k]) && Unresolved(op)
    requires op == ops[k].(status := op.status)
    ensures OneFence(ops[k := op])
  {
    hide Frontier;
    FrontierIgnores(ops, k, op);
  }

  lemma AbortTiles(f: Fence, p: Plan)
    requires TileLaw(f)
    ensures RequestAbort(f, p).Done? ==> TileLaw(RequestAbort(f, p).fence)
  {
    hide Tiles;
    hide Frontier;
    hide OneFence;
    hide OpsGrow;
    var r := RequestAbort(f, p);
    if r.Done? && r.fence != f {
      var ops, t := f.operations, r.fence.operations;
      var prior := FindOperation(ops, p.operation);
      if prior.None? {
        AppendTiles(ops, t[|ops|]);
        AppendOneFence(ops, t[|ops|]);
      } else {
        ReplaceTiles(ops, prior.value, t[prior.value]);
        ReplaceOneFence(ops, prior.value, t[prior.value]);
      }
    }
  }

  lemma ResolveTiles(f: Fence, worker: Id)
    requires TileLaw(f) && WorkerLaw(f)
    ensures Resolve(f, worker).Done? ==> TileLaw(Resolve(f, worker).fence)
  {
    hide Tiles;
    hide Frontier;
    hide Settle;
    var r := Resolve(f, worker);
    if r.Done? && r.fence != f {
      var (k, receipt) := f.observed[worker];
      var ops, op := f.operations, r.fence.operations[k];
      assert Unresolved(ops[k]);
      if receipt.completed {
        CompleteTiles(ops, k, op);
      } else {
        FrontierIgnores(ops, k, op);
        ReplaceTiles(ops, k, op);
      }
    }
  }

  // ---------------------------------------------------------------- holds

  /** An operation under way never overlaps a hold in force, and a hold waits only for such an operation. */
  ghost predicate HoldLaw(f: Fence) {
    forall id :: id in f.holds ==> HoldOk(f, f.holds[id])
  }

  predicate HoldOk(f: Fence, h: Hold) {
    match h.status
    case Held => !Fenced(f, h.request)
    case PendingFenced => Fenced(f, h.request)
    case ReleasePending => Fenced(f, h.request)
    case Released => true
  }

  /** Raising the fence over a plan no unreleased hold overlaps. */
  lemma AcceptHolds(f: Fence, worker: Id, ok: bool)
    requires HoldLaw(f)
    ensures Accept(f, worker, ok).Done? ==> HoldLaw(Accept(f, worker, ok).fence)
  {
    hide FindOperation;
    hide Frontier;
    var r := Accept(f, worker, ok);
    if r.Done? && r.fence != f {
      var t := r.fence;
      forall id | id in t.holds ensures HoldOk(t, t.holds[id]) {
        assert HoldOk(f, f.holds[id]);
        assert !Fenced(f, f.holds[id].request);
        var h := f.holds[id];
        assert !h.status.Released? ==> !Overlaps(h.request, f.gathered[worker].0);
        forall i | 0 <= i < |t.operations| ensures
          h.status.Released? || !(Unresolved(t.operations[i]) && Overlaps(h.request, t.operations[i].plan)) {
          assert i < |f.operations| ==> t.operations[i] == f.operations[i];
        }
      }
    }
  }

  lemma AbortHolds(f: Fence, p: Plan)
    requires HoldLaw(f)
    ensures RequestAbort(f, p).Done? ==> HoldLaw(RequestAbort(f, p).fence)
  {
    hide Fenced;
    var r := RequestAbort(f, p);
    if r.Done? {
      SameFences(f, r.fence);
    }
  }

  predicate SameUnresolved(ops: seq<Operation>, t: seq<Operation>) {
    && OpsGrow(ops, t)
    && (forall i :: 0 <= i < |ops| ==> (Unresolved(t[i]) <==> Unresolved(ops[i])))
    && (forall i :: |ops| <= i < |t| ==> !Unresolved(t[i]))
  }

  lemma SameFences(f: Fence, t: Fence)
    requires SameUnresolved(f.operations, t.operations)
    ensures forall h :: Fenced(t, h) <==> Fenced(f, h)
  {
    forall h ensures Fenced(t, h) <==> Fenced(f, h) { SameFence(f, t, h); }
  }

  lemma SameFence(f: Fence, t: Fence, h: HoldRequest)
    requires SameUnresolved(f.operations, t.operations)
    ensures Fenced(t, h) <==> Fenced(f, h)
  {
    if Fenced(f, h) {
      var i :| 0 <= i < |f.operations| && Unresolved(f.operations[i]) && Overlaps(h, f.operations[i].plan);
      assert Unresolved(t.operations[i]);
    }
    if Fenced(t, h) {
      var i :| 0 <= i < |t.operations| && Unresolved(t.operations[i]) && Overlaps(h, t.operations[i].plan);
      assert Unresolved(f.operations[i]);
    }
  }

  /** Lowering the one fence settles every waiting hold. */
  lemma ResolveHolds(f: Fence, worker: Id)
    requires HoldLaw(f) && TileLaw(f) && WorkerLaw(f)
    ensures Resolve(f, worker).Done? ==> HoldLaw(Resolve(f, worker).fence)
  {
    hide Tiles;
    hide Frontier;
    var r := Resolve(f, worker);
    if r.Done? && r.fence != f {
      var k, t := f.observed[worker].0, r.fence;
      assert f.operations[k].receipt.None? ==> Unresolved(f.operations[k]);
      forall h ensures !Fenced(t, h) {
        forall i | 0 <= i < |t.operations| ensures !Unresolved(t.operations[i]) {
          assert i != k ==> t.operations[i] == f.operations[i];
        }
      }
    }
  }

  lemma HoldStepHolds(f: Fence, op: Op)
    requires HoldLaw(f) && (op.HoldPut? || op.HoldReleased?)
    ensures HoldLaw(Step(f, op))
  {
    hide FindOperation;
    forall h ensures Fenced(Step(f, op), h) <==> Fenced(f, h) { }
  }

  // ---------------------------------------------------------------- policies and proofs

  /** At most one policy is active, and it has a recovery approval. */
  ghost predicate OneActive(policies: map<Id, Policy>) {
    && (forall a, b :: a in policies && b in policies && policies[a].active && policies[b].active ==> a == b)
    && (forall a :: a in policies && policies[a].active ==> policies[a].recovery.Some?)
  }

  /** A gathered proof list has one entry per required consumer for ever. */
  ghost predicate ProofCounts(f: Fence) {
    forall w :: w in f.gathered ==>
      f.gathered[w].0.policy in f.policies && |f.gathered[w].1| == |f.policies[f.gathered[w].0.policy].spec.consumers|
  }

  ghost predicate PolicyLaw(f: Fence) { OneActive(f.policies) && ProofCounts(f) }

  /** Switching one policy on switches the others off. */
  lemma SetActiveKeepsPolicies(f: Fence, id: Id, active: bool)
    requires PolicyLaw(f)
    ensures SetActive(f, id, active).Done? ==> PolicyLaw(SetActive(f, id, active).fence)
  { }

  lemma PutPolicyKeepsPolicies(f: Fence, id: Id, spec: PolicySpec)
    requires PolicyLaw(f)
    ensures PutPolicy(f, id, spec).Done? ==> PolicyLaw(PutPolicy(f, id, spec).fence)
  { }

  lemma RecoveryKeepsPolicies(f: Fence, id: Id, ref: Id)
    requires PolicyLaw(f)
    ensures ApproveRecovery(f, id, ref).Done? ==> PolicyLaw(ApproveRecovery(f, id, ref).fence)
  { }

  lemma StepKeepsPolicies(f: Fence, op: Op)
    requires PolicyLaw(f)
    ensures PolicyLaw(Step(f, op))
  {
    hide SetActive;
    hide PutPolicy;
    hide ApproveRecovery;
    hide OneActive;
    hide FindOperation;
    hide Fenced;
    hide Accept;
    hide RequestAbort;
    hide Resolve;
    hide OpsGrow;
    match op
    case ActiveSet(id, active) => SetActiveKeepsPolicies(f, id, active);
    case PolicyPut(id, spec) => PutPolicyKeepsPolicies(f, id, spec);
    case RecoveryApproved(id, ref) => RecoveryKeepsPolicies(f, id, ref);
    case _ =>
  }

  // ---------------------------------------------------------------- runs

  ghost predicate FenceLaw(f: Fence) { TileLaw(f) && WorkerLaw(f) && HoldLaw(f) && PolicyLaw(f) }

  lemma StepKeepsWorkers(f: Fence, op: Op)
    requires WorkerLaw(f) && OneFence(f.operations)
    ensures WorkerLaw(Step(f, op))
  {
    hide Frontier;
    hide Fenced;
    hide Accept;
    hide RequestAbort;
    hide Resolve;
  }

  lemma StepKeepsFence(f: Fence, op: Op)
    requires FenceLaw(f)
    ensures FenceLaw(Step(f, op))
  {
    StepKeepsPolicies(f, op);
    StepKeepsWorkers(f, op);
    hide PolicyLaw;
    hide WorkerLaw;
    hide TileLaw;
    hide HoldLaw;
    hide Accept;
    hide RequestAbort;
    hide Resolve;
    hide OpsGrow;
    hide FindOperation;
    hide Fenced;
    match op
    case AcceptBy(w, ok) => AcceptTiles(f, w, ok); AcceptHolds(f, w, ok);
    case AbortPlan(p) => AbortTiles(f, p); AbortHolds(f, p);
    case ResolveBy(w) => ResolveTiles(f, w); ResolveHolds(f, w);
    case HoldPut(_, _) => HoldStepHolds(f, op); SameOperations(f, Step(f, op));
    case HoldReleased(_) => HoldStepHolds(f, op); SameOperations(f, Step(f, op));
    case _ => SameOperations(f, Step(f, op));
  }

  lemma SameOperations(f: Fence, t: Fence)
    requires t.operations == f.operations
    ensures TileLaw(f) ==> TileLaw(t)
    ensures HoldLaw(f) && t.holds == f.holds ==> HoldLaw(t)
  {
    hide Tiles;
    hide OneFence;
    forall h ensures Fenced(t, h) <==> Fenced(f, h) { }
  }

  /** In every reachable state of a scope: at most one operation is unresolved and it starts just past the
      frontier, the completed ranges tile 1..frontier, no operation under way overlaps a hold in force, and
      holds wait only for such an operation. */
  lemma {:induction false} RunKeepsFence(ops: seq<Op>)
    ensures FenceLaw(Run(EMPTY, ops))
  {
    hide Step;
    if |ops| > 0 {
      RunKeepsFence(ops[..|ops| - 1]);
      StepKeepsFence(Run(EMPTY, ops[..|ops| - 1]), ops[|ops| - 1]);
    }
  }

  /** Whatever the step, a new operation under way overlaps no hold that is not released. */
  lemma NeverAcceptedOverHold(f: Fence, op: Op, i: nat, id: Id)
    requires |f.operations| <= i < |Step(f, op).operations| && Unresolved(Step(f, op).operations[i])
    requires id in f.holds && !f.holds[id].status.Released?
    ensures !Overlaps(f.holds[id].request, Step(f, op).operations[i].plan)
  {
    hide FindOperation;
    hide Frontier;
    hide Fenced;
    hide Settle;
    hide OpsGrow;
  }

  // ---------------------------------------------------------------- what a hold protects

  /** Since `ops`, nothing the hold covers was retired. */
  ghost predicate NothingRetired(ops: seq<Operation>, t: seq<Operation>, h: HoldRequest) {
    forall i :: 0 <= i < |t| && t[i].status.Completed? && Overlaps(h, t[i].plan) ==>
      i < |ops| && ops[i].status.Completed?
  }

  /** Only an operation already under way can complete in a step. */
  lemma StepCompletes(f: Fence, op: Op, i: nat)
    requires OneFence(f.operations) && WorkerLaw(f) && i < |Step(f, op).operations|
    requires Step(f, op).operations[i].status.Completed?
    ensures i < |f.operations| && Step(f, op).operations[i].plan == f.operations[i].plan
    ensures f.operations[i].status.Completed? || Unresolved(f.operations[i])
  {
    hide Frontier;
    hide Fenced;
    hide HoldBlocks;
    hide AnyUnresolved;
    hide ProofsValid;
    hide Settle;
    hide OpsGrow;
  }

  lemma StepKeepsHeld(f: Fence, op: Op, id: Id)
    requires id in f.holds && f.holds[id].status.Held? && op != HoldReleased(id)
    ensures id in Step(f, op).holds && Step(f, op).holds[id] == f.holds[id]
  {
    hide Frontier;
    hide FindOperation;
    hide Fenced;
    hide Accept;
    hide RequestAbort;
    hide OpsGrow;
  }

  /** While a hold is in force nothing in its range is retired, whatever requests, aborts and resolutions follow. */
  lemma {:induction false} HeldIsNeverRetired(before: seq<Op>, after: seq<Op>, id: Id)
    requires id in Run(EMPTY, before).holds && Run(EMPTY, before).holds[id].status.Held?
    requires forall i :: 0 <= i < |after| ==> after[i] != HoldReleased(id)
    ensures id in Run(EMPTY, before + after).holds
    ensures Run(EMPTY, before + after).holds[id] == Run(EMPTY, before).holds[id]
    ensures NothingRetired(Run(EMPTY, before).operations, Run(EMPTY, before + after).operations,
                           Run(EMPTY, before).holds[id].request)
  {
    hide Step;
    if |after| == 0 {
      assert before + after == before;
    } else {
      var n := |after| - 1;
      assert before + after == before + after[..n] + [after[n]];
      assert (before + after)[..|before| + n] == before + after[..n];
      HeldIsNeverRetired(before, after[..n], id);
      RunKeepsFence(before + after[..n]);
      HeldStep(Run(EMPTY, before).operations, Run(EMPTY, before + after[..n]), after[n], id);
    }
  }

  lemma HeldStep(ops: seq<Operation>, f: Fence, op: Op, id: Id)
    requires FenceLaw(f) && id in f.holds && f.holds[id].status.Held? && op != HoldReleased(id)
    requires NothingRetired(ops, f.operations, f.holds[id].request)
    ensures id in Step(f, op).holds && Step(f, op).holds[id] == f.holds[id]
    ensures NothingRetired(ops, Step(f, op).operations, f.holds[id].request)
  {
    hide Step;
    hide Tiles;
    hide PolicyLaw;
    StepKeepsHeld(f, op, id);
    assert HoldOk(f, f.holds[id]);
    var t := Step(f, op).operations;
    forall i | 0 <= i < |t| && t[i].status.Completed? && Overlaps(f.holds[id].request, t[i].plan)
      ensures i < |ops| && ops[i].status.Completed?
    {
      StepCompletes(f, op, i);
      assert f.operations[i].status.Completed?;
    }
  }

  // ---------------------------------------------------------------- a retirement that completes

  lemma RunNext(f: Fence, ops: seq<Op>, op: Op)
    ensures Run(f, ops + [op]) == Step(Run(f, ops), op)
  {
    assert (ops + [op])[..|ops|] == ops;
    hide Step;
  }

  const SPEC: PolicySpec := PolicySpec(["consumer"])
  const CLEARANCE: Clearance := Clearance("policy", 1, 10, false)
  const PLAN: Plan := Plan("op", "policy", "clearance", 1, 10, "binding")
  const RETIRED: Receipt := Receipt(true, "digest")
  const UNDER_WAY: Operation := Operation(PLAN, Accepted, ByAcceptance, None)
  const HOLD: HoldRequest := HoldRequest(5, 6, "audit")

  /** The scope once its policy is active and cleared. */
  function Ready(holds: map<Id, Hold>, operations: seq<Operation>, observed: map<Id, (nat, Receipt)>): Fence {
    Fence(map["policy" := Policy(SPEC, Some("approval"), true)], map["clearance" := CLEARANCE], holds, operations,
          map["w" := (PLAN, [Proof("consumer", true)])], observed)
  }

  const SETUP: seq<Op> :=
    [PolicyPut("policy", SPEC)] + [RecoveryApproved("policy", "approval")] + [ActiveSet("policy", true)]
    + [ClearancePut("clearance", CLEARANCE, true)]
  const GATHER: Op := GatherFor("w", PLAN, [Proof("consumer", true)], true)

  lemma SetsUp()
    ensures Run(EMPTY, SETUP + [GATHER]) == Ready(map[], [], map[])
  {
    var a, b, c := [PolicyPut("policy", SPEC)], [RecoveryApproved("policy", "approval")], [ActiveSet("policy", true)];
    RunNext(EMPTY, [], a[0]);
    assert [] + a == a;
    RunNext(EMPTY, a, b[0]);
    RunNext(EMPTY, a + b, c[0]);
    RunNext(EMPTY, a + b + c, ClearancePut("clearance", CLEARANCE, true));
    RunNext(EMPTY, SETUP, GATHER);
    assert FindOperation([], "op").None?;
  }

  lemma Accepts()
    ensures Step(Ready(map[], [], map[]), AcceptBy("w", true)) == Ready(map[], [UNDER_WAY], map[])
  {
    assert FindOperation([], "op").None? && Frontier([]) == 0;
    assert [] + [UNDER_WAY] == [UNDER_WAY];
  }

  lemma Waits()
    ensures Step(Ready(map[], [UNDER_WAY], map[]), HoldPut("h", HOLD))
            == Ready(map["h" := Hold(HOLD, PendingFenced)], [UNDER_WAY], map[])
  {
    assert Unresolved([UNDER_WAY][0]) && Overlaps(HOLD, [UNDER_WAY][0].plan);
    assert Fenced(Ready(map[], [UNDER_WAY], map[]), HOLD);
  }

  lemma Completes()
    ensures Step(Ready(map["h" := Hold(HOLD, PendingFenced)], [UNDER_WAY], map[]), ObserveFor("w", "op", RETIRED))
            == Ready(map["h" := Hold(HOLD, PendingFenced)], [UNDER_WAY], map["w" := (0, RETIRED)])
    ensures Step(Ready(map["h" := Hold(HOLD, PendingFenced)], [UNDER_WAY], map["w" := (0, RETIRED)]), ResolveBy("w"))
            == Ready(map["h" := Hold(HOLD, Held)], [UNDER_WAY.(status := Completed, receipt := Some(RETIRED))],
                     map["w" := (0, RETIRED)])
  {
    assert FindOperation([UNDER_WAY], "op") == Some(0);
    assert [UNDER_WAY][0 := UNDER_WAY.(status := Completed, receipt := Some(RETIRED))]
        == [UNDER_WAY.(status := Completed, receipt := Some(RETIRED))];
    assert Settle(map["h" := Hold(HOLD, PendingFenced)]) == map["h" := Hold(HOLD, Held)];
  }

  /** A range is retired, a hold that came in behind the fence waits for it and then holds, and the frontier moves. */
  lemma RetirementCompletes() returns (ops: seq<Op>)
    ensures Frontier(Run(EMPTY, ops).operations) == 10
    ensures Run(EMPTY, ops).holds == map["h" := Hold(HOLD, Held)]
  {
    SetsUp();
    Accepts();
    Waits();
    Completes();
    hide Step;
    ops := SETUP + [GATHER];
    hide Run;
    RunNext(EMPTY, ops, AcceptBy("w", true));
    ops := ops + [AcceptBy("w", true)];
    RunNext(EMPTY, ops, HoldPut("h", HOLD));
    ops := ops + [HoldPut("h", HOLD)];
    RunNext(EMPTY, ops, ObserveFor("w", "op", RETIRED));
    ops := ops + [ObserveFor("w", "op", RETIRED)];
    RunNext(EMPTY, ops, ResolveBy("w"));
    ops := ops + [ResolveBy("w")];
    var done := UNDER_WAY.(status := Completed, receipt := Some(RETIRED));
    assert [done][..0] == [] && Frontier([]) == 0;
    assert Frontier([done]) == 10;
  }
}
