/** Payment job orchestration: any number of workers lease jobs, begin attempts, call the provider and
    finalize, each store call one transaction, with lease theft and a crash possible between any two calls.
    `log` is what the outside world saw: the provider calls and the attempts closed. */
module PaymentJobs {
  import opened Common
  import opened Account

  datatype JobReason = ChargeJob | UnknownJob | WebhookJob | OtherJob
  datatype Lease = Pending | Leased(owner: Id, at: Time) | JobCompleted
  datatype Job = Job(intent: Id, reason: JobReason, due: Time, lease: Lease)

  datatype Operation = ChargeCall | QueryCall
  datatype Attempt = Attempt(intent: Id, operation: Operation, digest: bool, result: Option<IntentState>)

  /** Where a worker's result comes from: the provider, a branch that sends nothing, or recovery. */
  datatype Source = Answered | NotSent | Recovered

  datatype Pc =
    | Idle
    | Closing(job: nat)
    | Fresh(job: nat, attempt: nat)
    | Sending(job: nat, attempt: nat)
    | Recovering(job: nat, attempt: nat, needsDigest: bool)
    | Recording(job: nat, attempt: nat, state: IntentState, source: Source)

  datatype Worker = Worker(owner: Id, queue: seq<nat>, pc: Pc)

  datatype Event =
    | Charged(attempt: nat)
    | Queried(attempt: nat)
    | AttemptClosed(attempt: nat, state: IntentState, source: Source)

  datatype Shop = Shop(
    jobs: seq<Job>, intents: map<Id, IntentState>, attempts: seq<Attempt>, workers: map<Id, Worker>, log: seq<Event>)

  // ---------------------------------------------------------------- store transactions

  predicate Claimable(j: Job, now: Time, staleBefore: Time) {
    match j.lease
    case Pending => j.due <= now
    case Leased(_, at) => at <= staleBefore
    case JobCompleted => false
  }

  /** The batch a claim may take: what was asked for, or twenty. */
  function BatchLimit(asked: int): (n: nat)
    ensures 1 <= n <= 100
  {
    if asked <= 0 || asked > 100 then 20 else asked
  }

  /** Leases the claimable ones among the rows the query found unlocked, up to the limit. */
  function ClaimPaymentJobs(
    jobs: seq<Job>, picked: seq<nat>, now: Time, staleBefore: Time, owner: Id, limit: nat): (r: (seq<Job>, seq<nat>))
    ensures |r.0| == |jobs| && |r.1| <= limit
    ensures forall k :: 0 <= k < |jobs| && k in picked && Claimable(jobs[k], now, staleBefore) && k !in r.1 ==>
              |r.1| == limit
    ensures forall i :: 0 <= i < |jobs| ==> r.0[i].intent == jobs[i].intent && r.0[i].reason == jobs[i].reason
    ensures forall i :: 0 <= i < |r.1| ==>
              && r.1[i] < |jobs| && Claimable(jobs[r.1[i]], now, staleBefore)
              && r.0[r.1[i]] == jobs[r.1[i]].(lease := Leased(owner, now))
    ensures forall k :: 0 <= k < |jobs| && k !in r.1 ==> r.0[k] == jobs[k]
  {
    if |picked| == 0 then (jobs, [])
    else
      var (before, claimed) := ClaimPaymentJobs(jobs, picked[..|picked| - 1], now, staleBefore, owner, limit);
      var k := picked[|picked| - 1];
      if |claimed| == limit || k >= |jobs| || k in claimed || !Claimable(before[k], now, staleBefore)
      then (before, claimed)
      else (before[k := before[k].(lease := Leased(owner, now))], claimed + [k])
  }

  predicate HoldsLease(s: Shop, k: nat, owner: Id) {
    k < |s.jobs| && s.jobs[k].lease.Leased? && s.jobs[k].lease.owner == owner
  }

  /** The latest attempt of this intent and operation that is not completed. */
  function Incomplete(attempts: seq<Attempt>, intent: Id, op: Operation): (r: Option<nat>)
    ensures r.Some? ==>
              r.value < |attempts| && attempts[r.value].intent == intent && attempts[r.value].operation == op
              && attempts[r.value].result.None?
    ensures r.None? ==>
              forall i :: 0 <= i < |attempts| && attempts[i].intent == intent && attempts[i].operation == op ==>
                attempts[i].result.Some?
  {
    if |attempts| == 0 then None
    else
      var last := attempts[|attempts| - 1];
      if last.intent == intent && last.operation == op && last.result.None? then Some(|attempts| - 1)
      else Incomplete(attempts[..|attempts| - 1], intent, op)
  }

  datatype Begin =
    | Begun(shop: Shop, attempt: nat)
    | Existing(attempt: nat)
    | NotActionable
    | Refused

  predicate Queryable(st: IntentState) { st.Processing? || st.Authorized? || st.RequiresAction? || st.Unknown? }

  function BeginProviderAttempt(
    s: Shop, k: nat, owner: Id, op: Operation, handoffFenced: bool, methodActive: bool): Begin {
    if !HoldsLease(s, k, owner) then Refused
    else
      var job := s.jobs[k];
      if job.intent !in s.intents then Refused
      else
        var st := s.intents[job.intent];
        if Terminal(st) then NotActionable
        else
          var open := Incomplete(s.attempts, job.intent, op);
          if open.Some? then Existing(open.value)
          else if op.ChargeCall? then
            if handoffFenced then Refused
            else if !job.reason.ChargeJob? || !st.Created? then NotActionable
            else if !methodActive then Refused
            else
              Begun(s.(intents := s.intents[job.intent := Processing],
                       attempts := s.attempts + [Attempt(job.intent, ChargeCall, false, None)]), |s.attempts|)
          else if job.reason.ChargeJob? || !Queryable(st) then NotActionable
          else Begun(s.(attempts := s.attempts + [Attempt(job.intent, QueryCall, false, None)]), |s.attempts|)
  }

  /** None is a conflict: the digest is there already, or the attempt is closed. */
  function SetAttemptRequestDigest(s: Shop, a: nat): Option<Shop> {
    if a >= |s.attempts| || s.attempts[a].digest || s.attempts[a].result.Some? then None
    else Some(s.(attempts := s.attempts[a := s.attempts[a].(digest := true)]))
  }

  predicate ValidResult(st: IntentState) { !st.Created? && !st.Processing? }

  /** `conflict`: transitionIntentTx refuses for a reason outside the intent's state. */
  function FinalizeProviderAttempt(
    s: Shop, k: nat, owner: Id, a: nat, st: IntentState, source: Source, retryAt: Time, conflict: bool): Option<Shop>
  {
    if !ValidResult(st) || !HoldsLease(s, k, owner) || a >= |s.attempts| || s.attempts[a].intent != s.jobs[k].intent
    then None
    else if s.attempts[a].result.Some? then Some(s)
    else
      var i := s.jobs[k].intent;
      if i !in s.intents || conflict || !CanTransition(s.intents[i], st) then None
      else
        var job := s.jobs[k];
        var requeue := st.Unknown? && job.reason.UnknownJob?;
        var closed := s.jobs[k := if requeue then job.(lease := Pending, due := retryAt)
                                  else job.(lease := JobCompleted)];
        var follow := st.Unknown? && !requeue && !OpenJob(closed, i, UnknownJob);
        var jobs := if follow then closed + [Job(i, UnknownJob, retryAt, Pending)] else closed;
        Some(s.(jobs := jobs, intents := s.intents[i := st],
                attempts := s.attempts[a := s.attempts[a].(result := Some(st))],
                log := s.log + [AttemptClosed(a, st, source)]))
  }

  predicate OpenJob(jobs: seq<Job>, intent: Id, reason: JobReason) {
    exists k :: 0 <= k < |jobs| && jobs[k].intent == intent && jobs[k].reason == reason && !jobs[k].lease.JobCompleted?
  }

  // ---------------------------------------------------------------- the service

  datatype Answer = Reports(state: IntentState) | Errors(mapped: IntentState)

  /** What the charge or query call turns into: a failed lookup proves nothing about an earlier payment. */
  function ResultOf(op: Operation, answer: Answer): IntentState {
    var st := match answer case Reports(st) => st case Errors(st) => if op.QueryCall? then Unknown else st;
    if ValidResult(st) then st else Unknown
  }

  /** The branches of ProcessJob between beginning a fresh attempt and finalizing it. */
  datatype Route = NoProvider | Disabled | NoMethod | Send

  datatype Op =
    | CreateIntent(id: Id)
    | AddJob(job: Job)
    | TransitionElsewhere(id: Id, to: IntentState)
    | StartWorker(w: Id, owner: Id)
    | Claim(w: Id, picked: seq<nat>, now: Time, staleBefore: Time, asked: int)
    | BeginNext(w: Id, handoffFenced: bool, methodActive: bool)
    | CompleteJob(w: Id)
    | RetryJob(k: nat, owner: Id, due: Time)
    | Prepare(w: Id, route: Route)
    | CallProvider(w: Id, answer: Answer)
    | Recover(w: Id)
    | Finish(w: Id, retryAt: Time, conflict: bool)
    | Crash(w: Id)

  function At(s: Shop, w: Id, pc: Pc): Shop
    requires w in s.workers
  {
    s.(workers := s.workers[w := s.workers[w].(pc := pc)])
  }

  /** An error ends the batch. */
  function Stop(s: Shop, w: Id): Shop
    requires w in s.workers
  {
    s.(workers := s.workers[w := s.workers[w].(pc := Idle, queue := [])])
  }

  function DoBegin(s: Shop, w: Id, handoffFenced: bool, methodActive: bool): Shop {
    if w !in s.workers || !s.workers[w].pc.Idle? || |s.workers[w].queue| == 0 || s.workers[w].queue[0] >= |s.jobs|
    then s
    else
      var k := s.workers[w].queue[0];
      var t := s.(workers := s.workers[w := s.workers[w].(queue := s.workers[w].queue[1..])]);
      var op := if s.jobs[k].reason.ChargeJob? then ChargeCall else QueryCall;
      match BeginProviderAttempt(t, k, s.workers[w].owner, op, handoffFenced, methodActive)
      case Begun(u, a) => At(u, w, Fresh(k, a))
      case Existing(a) => At(t, w, Recovering(k, a, !t.attempts[a].digest))
      case NotActionable => At(t, w, Closing(k))
      case Refused => Stop(t, w)
  }

  function DoComplete(s: Shop, w: Id): Shop {
    if w !in s.workers || !s.workers[w].pc.Closing? then s
    else
      var k := s.workers[w].pc.job;
      if HoldsLease(s, k, s.workers[w].owner)
      then At(s.(jobs := s.jobs[k := s.jobs[k].(lease := JobCompleted)]), w, Idle)
      else Stop(s, w)
  }

  function DoPrepare(s: Shop, w: Id, route: Route): Shop {
    if w !in s.workers || !s.workers[w].pc.Fresh? || s.workers[w].pc.attempt >= |s.attempts| then s
    else
      var Fresh(k, a) := s.workers[w].pc;
      var charging := s.attempts[a].operation.ChargeCall?;
      if route.NoProvider? then At(s, w, Recording(k, a, Failed, NotSent))
      else if route.NoMethod? && charging then At(s, w, Recording(k, a, Failed, NotSent))
      else
        var marked := SetAttemptRequestDigest(s, a);
        if marked.None? then At(s, w, Recording(k, a, Unknown, NotSent))
        else if route.Disabled? && charging then At(marked.value, w, Recording(k, a, Failed, NotSent))
        else At(marked.value, w, Sending(k, a))
  }

  function DoCall(s: Shop, w: Id, answer: Answer): Shop {
    if w !in s.workers || !s.workers[w].pc.Sending? || s.workers[w].pc.attempt >= |s.attempts| then s
    else
      var Sending(k, a) := s.workers[w].pc;
      var op := s.attempts[a].operation;
      var event := if op.ChargeCall? then Charged(a) else Queried(a);
      At(s.(log := s.log + [event]), w, Recording(k, a, ResultOf(op, answer), Answered))
  }

  function DoRecover(s: Shop, w: Id): Shop {
    if w !in s.workers || !s.workers[w].pc.Recovering? then s
    else
      var Recovering(k, a, needsDigest) := s.workers[w].pc;
      if !needsDigest then At(s, w, Recording(k, a, Unknown, Recovered))
      else
        var marked := SetAttemptRequestDigest(s, a);
        if marked.None? then Stop(s, w) else At(marked.value, w, Recording(k, a, Unknown, Recovered))
  }

  function DoFinish(s: Shop, w: Id, retryAt: Time, conflict: bool): Shop {
    if w !in s.workers || !s.workers[w].pc.Recording? then s
    else
      var Recording(k, a, st, source) := s.workers[w].pc;
      var r := FinalizeProviderAttempt(s, k, s.workers[w].owner, a, st, source, retryAt, conflict);
      if r.None? then Stop(s, w) else At(r.value, w, Idle)
  }

  function Step(s: Shop, op: Op): Shop {
    match op
    case CreateIntent(id) => if id in s.intents then s else s.(intents := s.intents[id := Created])
    case AddJob(job) => s.(jobs := s.jobs + [job])
    case TransitionElsewhere(id, to) =>
      if id in s.intents && CanTransition(s.intents[id], to) then s.(intents := s.intents[id := to]) else s
    case StartWorker(w, owner) => if w in s.workers then s else s.(workers := s.workers[w := Worker(owner, [], Idle)])
    case Claim(w, picked, now, stale, asked) =>
      if w !in s.workers || !s.workers[w].pc.Idle? || |s.workers[w].queue| > 0 then s
      else
        var (jobs, claimed) := ClaimPaymentJobs(s.jobs, picked, now, stale, s.workers[w].owner, BatchLimit(asked));
        s.(jobs := jobs, workers := s.workers[w := s.workers[w].(queue := claimed)])
    case BeginNext(w, fenced, methodActive) => DoBegin(s, w, fenced, methodActive)
    case CompleteJob(w) => DoComplete(s, w)
    case RetryJob(k, owner, due) =>
      if HoldsLease(s, k, owner) then s.(jobs := s.jobs[k := s.jobs[k].(lease := Pending, due := due)]) else s
    case Prepare(w, route) => DoPrepare(s, w, route)
    case CallProvider(w, answer) => DoCall(s, w, answer)
    case Recover(w) => DoRecover(s, w)
    case Finish(w, retryAt, conflict) => DoFinish(s, w, retryAt, conflict)
    case Crash(w) => if w in s.workers then Stop(s, w) else s
  }

  function Run(ops: seq<Op>): Shop {
    if |ops| == 0 then Shop([], map[], [], map[], []) else Step(Run(ops[..|ops| - 1]), ops[|ops| - 1])
  }

  lemma RunNext(ops: seq<Op>, op: Op)
    ensures Run(ops + [op]) == Step(Run(ops), op)
  {
    assert (ops + [op])[..|ops|] == ops;
    hide Step;
  }

  // ---------------------------------------------------------------- what a worker may still do

  /** The worker that began attempt `a` and has not yet called the provider for it. */
  predicate MaySend(pc: Pc, a: nat) { (pc.Fresh? || pc.Sending?) && pc.attempt == a }

  /** The worker that began attempt `a`, at any point before it closes it. */
  predicate Owns(pc: Pc, a: nat) {
    MaySend(pc, a) || (pc.Recording? && pc.attempt == a && !pc.source.Recovered?)
  }

  predicate UsesAttempt(pc: Pc) { pc.Fresh? || pc.Sending? || pc.Recovering? || pc.Recording? }

  predicate SentInLog(log: seq<Event>, a: nat) { exists i :: 0 <= i < |log| && log[i] == Charged(a) }

  predicate ClosedUnsent(log: seq<Event>, a: nat) {
    exists i :: 0 <= i < |log| && log[i].AttemptClosed? && log[i].attempt == a && log[i].source.NotSent?
  }

  predicate SameCharge(a: Attempt, b: Attempt) {
    a.operation.ChargeCall? && b.operation.ChargeCall? && a.intent == b.intent
  }

  /** One charge attempt per intent, and none for an intent still in state created. */
  ghost predicate OneChargeAttempt(s: Shop) {
    && (forall a, b :: 0 <= a < |s.attempts| && 0 <= b < |s.attempts| && SameCharge(s.attempts[a], s.attempts[b]) ==>
          a == b)
    && (forall a :: 0 <= a < |s.attempts| && s.attempts[a].operation.ChargeCall? ==>
          s.attempts[a].intent in s.intents && !s.intents[s.attempts[a].intent].Created?)
  }

  /** An attempt has at most one owner, and workers speak of attempts that exist. */
  ghost predicate OneOwner(s: Shop) {
    && (forall w :: w in s.workers && UsesAttempt(s.workers[w].pc) ==> s.workers[w].pc.attempt < |s.attempts|)
    && (forall v, w, a :: v in s.workers && w in s.workers && Owns(s.workers[v].pc, a) && Owns(s.workers[w].pc, a) ==>
          v == w)
  }

  /** A worker past its digest left it behind; a recovered result is Unknown. */
  ghost predicate PcOk(s: Shop) {
    forall w :: w in s.workers ==> PcFacts(s, s.workers[w].pc)
  }

  predicate PcFacts(s: Shop, pc: Pc) {
    && (pc.Sending? && pc.attempt < |s.attempts| ==> s.attempts[pc.attempt].digest)
    && (pc.Recording? ==> ValidResult(pc.state) && (pc.source.Recovered? ==> pc.state.Unknown?))
    && (pc.Recording? && pc.source.NotSent? ==> !SentInLog(s.log, pc.attempt))
  }

  /** A charge that went out belongs to a charge attempt with its digest; nobody may send it again, and it is
      not recorded as unsent. */
  ghost predicate SentOnce(s: Shop) {
    SendsLogged(s) && (forall w, a :: w in s.workers && MaySend(s.workers[w].pc, a) ==> !SentInLog(s.log, a))
  }

  ghost predicate SendsLogged(s: Shop) {
    && (forall i :: 0 <= i < |s.log| ==> s.log[i].attempt < |s.attempts|)
    && (forall i :: 0 <= i < |s.log| && s.log[i].Charged? ==>
          s.attempts[s.log[i].attempt].operation.ChargeCall? && s.attempts[s.log[i].attempt].digest)
    && (forall i, j :: 0 <= i < |s.log| && 0 <= j < |s.log| && s.log[i].Charged? && s.log[i] == s.log[j] ==> i == j)
  }

  ghost predicate UnsentStays(s: Shop) {
    && (forall a: nat :: ClosedUnsent(s.log, a) ==> !SentInLog(s.log, a))
    && (forall w, a :: w in s.workers && MaySend(s.workers[w].pc, a) ==> !ClosedUnsent(s.log, a))
  }

  predicate SameClosing(a: Event, b: Event) { a.AttemptClosed? && b.AttemptClosed? && a.attempt == b.attempt }

  /** An attempt is closed at most once, with the state the log says. */
  ghost predicate FinalizedOnce(s: Shop) {
    && (forall i, j :: 0 <= i < |s.log| && 0 <= j < |s.log| && SameClosing(s.log[i], s.log[j]) ==> i == j)
    && (forall i :: 0 <= i < |s.log| && s.log[i].AttemptClosed? && s.log[i].attempt < |s.attempts| ==>
          s.attempts[s.log[i].attempt].result == Some(s.log[i].state))
    && (forall i :: 0 <= i < |s.log| && s.log[i].AttemptClosed? && s.log[i].source.Recovered? ==>
          s.log[i].state.Unknown?)
  }

  ghost predicate JobLaw(s: Shop) {
    OneChargeAttempt(s) && OneOwner(s) && PcOk(s) && SentOnce(s) && UnsentStays(s) && FinalizedOnce(s)
  }

  // ---------------------------------------------------------------- steps that send and close nothing

  predicate SameButDigest(a: Attempt, b: Attempt) {
    b == a.(digest := b.digest) && (a.digest ==> b.digest)
  }

  /** A worker lets go of its attempt, keeps its place, moves on within it, or takes one up for recovery. */
  predicate Follows(s: Shop, p: Pc, q: Pc) {
    q == p || q.Idle? || q.Closing?
    || (q.Recovering? && q.attempt < |s.attempts|)
    || (UsesAttempt(p) && UsesAttempt(q) && q.attempt == p.attempt && !q.Fresh? && (q.Sending? ==> p.Fresh?)
        && (q.Recording? ==> (q.source.Recovered? && p.Recovering?) || (q.source.NotSent? && p.Fresh?)))
  }

  function PcOf(s: Shop, w: Id): Pc { if w in s.workers then s.workers[w].pc else Idle }

  ghost predicate Quiet(s: Shop, t: Shop) {
    && t.log == s.log
    && |t.attempts| == |s.attempts|
    && (forall a :: 0 <= a < |s.attempts| ==> SameButDigest(s.attempts[a], t.attempts[a]))
    && (forall i :: i in s.intents ==> i in t.intents && (t.intents[i].Created? ==> s.intents[i].Created?))
    && (forall w :: w in t.workers ==> Follows(s, PcOf(s, w), t.workers[w].pc) && Settled(t, t.workers[w].pc))
  }

  predicate Settled(s: Shop, pc: Pc) {
    && (pc.Sending? && pc.attempt < |s.attempts| ==> s.attempts[pc.attempt].digest)
    && (pc.Recording? ==> ValidResult(pc.state) && (pc.source.Recovered? ==> pc.state.Unknown?))
  }

  lemma QuietKeepsPc(s: Shop, t: Shop)
    requires Quiet(s, t) && PcOk(s) && SentOnce(s)
    ensures PcOk(t)
  {
    hide SentInLog;
    hide ValidResult;
    forall w | w in t.workers ensures PcFacts(t, t.workers[w].pc) {
      var p, q := PcOf(s, w), t.workers[w].pc;
      assert UsesAttempt(p) ==> w in s.workers && PcFacts(s, p);
      assert p.Fresh? ==> MaySend(p, p.attempt);
    }
  }

  lemma QuietKeepsOwner(s: Shop, t: Shop)
    requires Quiet(s, t) && OneOwner(s)
    ensures OneOwner(t)
    ensures forall w, a :: w in t.workers && MaySend(t.workers[w].pc, a) ==>
              w in s.workers && MaySend(s.workers[w].pc, a)
  {
    hide ValidResult;
    forall w, a | w in t.workers && Owns(t.workers[w].pc, a) ensures w in s.workers && Owns(s.workers[w].pc, a) { }
  }

  lemma QuietKeepsLaw(s: Shop, t: Shop)
    requires JobLaw(s) && Quiet(s, t)
    ensures JobLaw(t)
  {
    QuietKeepsPc(s, t);
    QuietKeepsOwner(s, t);
    hide SentInLog;
    hide ClosedUnsent;
    hide PcOk;
    hide OneOwner;
    hide Follows;
    hide Settled;
  }

  lemma QuietSteps(s: Shop, op: Op)
    requires PcOk(s)
    requires op.CreateIntent? || op.AddJob? || op.TransitionElsewhere? || op.StartWorker? || op.Claim?
            || op.CompleteJob?
             || op.RetryJob? || op.Crash?
    ensures Quiet(s, Step(s, op))
  {
    hide SentInLog;
    hide ValidResult;
    hide ClaimPaymentJobs;
    hide DoBegin;
    hide DoPrepare;
    hide DoCall;
    hide DoRecover;
    hide DoFinish;
  }

  ghost predicate DigestsOnly(a: seq<Attempt>, b: seq<Attempt>) {
    |b| == |a| && forall i :: 0 <= i < |a| ==> SameButDigest(a[i], b[i])
  }

  /** One worker moves on, with at most a digest left behind. */
  lemma MoveIsQuiet(s: Shop, t: Shop, w: Id, worker: Worker)
    requires PcOk(s) && w in s.workers && DigestsOnly(s.attempts, t.attempts)
    requires t == s.(attempts := t.attempts, workers := s.workers[w := worker])
    requires Follows(s, s.workers[w].pc, worker.pc) && Settled(t, worker.pc)
    ensures Quiet(s, t)
  {
    hide SentInLog;
    hide ValidResult;
    forall v | v in t.workers ensures Follows(s, PcOf(s, v), t.workers[v].pc) && Settled(t, t.workers[v].pc) {
      assert v != w ==> PcFacts(s, s.workers[v].pc);
    }
    hide Follows;
  }

  lemma MarkKeepsRest(s: Shop, a: nat)
    ensures var r := SetAttemptRequestDigest(s, a);
            r.Some? ==>
              && r.value == s.(attempts := r.value.attempts) && DigestsOnly(s.attempts, r.value.attempts)
              && a < |r.value.attempts| && r.value.attempts[a].digest
  { }

  lemma PrepareIsQuiet(s: Shop, w: Id, route: Route)
    requires PcOk(s)
    ensures Quiet(s, DoPrepare(s, w, route))
  {
    hide PcOk;
    hide SetAttemptRequestDigest;
    var t := DoPrepare(s, w, route);
    if w in s.workers && s.workers[w].pc.Fresh? {
      MarkKeepsRest(s, s.workers[w].pc.attempt);
      MoveIsQuiet(s, t, w, t.workers[w]);
    } else {
      SameIsQuiet(s);
    }
    hide Quiet;
  }

  lemma SameIsQuiet(s: Shop)
    requires PcOk(s)
    ensures Quiet(s, s)
  {
    hide SentInLog;
    hide ValidResult;
    assert forall v :: v in s.workers ==> PcFacts(s, s.workers[v].pc);
  }

  lemma RecoverIsQuiet(s: Shop, w: Id)
    requires PcOk(s)
    ensures Quiet(s, DoRecover(s, w))
  {
    hide PcOk;
    hide SetAttemptRequestDigest;
    var t := DoRecover(s, w);
    if w in s.workers && s.workers[w].pc.Recovering? {
      MarkKeepsRest(s, s.workers[w].pc.attempt);
      MoveIsQuiet(s, t, w, t.workers[w]);
    } else {
      SameIsQuiet(s);
    }
    hide Quiet;
  }

  // ---------------------------------------------------------------- beginning, sending and closing

  /** A new attempt, owned by the worker that began it. */
  ghost predicate Begins(s: Shop, t: Shop, w: Id, k: nat, x: Attempt) {
    && PcOf(s, w).Idle? && w in t.workers && t.workers[w].pc == Fresh(k, |s.attempts|)
    && t.log == s.log && t.attempts == s.attempts + [x] && x.result.None?
    && (forall i :: i in s.intents ==> i in t.intents && (t.intents[i].Created? ==> s.intents[i].Created?))
    && (forall v :: v in t.workers && v != w ==> v in s.workers && t.workers[v].pc == s.workers[v].pc)
    && (x.operation.ChargeCall? ==>
          x.intent in s.intents && s.intents[x.intent].Created? && !t.intents[x.intent].Created?)
  }

  lemma BeginsKeepsWorkers(s: Shop, t: Shop, w: Id, k: nat, x: Attempt)
    requires OneOwner(s) && PcOk(s) && Begins(s, t, w, k, x)
    ensures OneOwner(t) && PcOk(t)
  {
    hide ValidResult;
    hide SentInLog;
  }

  lemma BeginsKeepsCharges(s: Shop, t: Shop, w: Id, k: nat, x: Attempt)
    requires OneChargeAttempt(s) && Begins(s, t, w, k, x)
    ensures OneChargeAttempt(t)
  { }

  lemma BeginsKeepsLog(s: Shop, t: Shop, w: Id, k: nat, x: Attempt)
    requires SentOnce(s) && UnsentStays(s) && FinalizedOnce(s) && Begins(s, t, w, k, x)
    ensures SentOnce(t) && UnsentStays(t) && FinalizedOnce(t)
  {
    NothingLogged(s, |s.attempts|);
    hide SentInLog;
    hide ClosedUnsent;
  }

  lemma BeginsKeepsLaw(s: Shop, t: Shop, w: Id, k: nat, x: Attempt)
    requires JobLaw(s) && Begins(s, t, w, k, x)
    ensures JobLaw(t)
  {
    BeginsKeepsWorkers(s, t, w, k, x);
    BeginsKeepsCharges(s, t, w, k, x);
    BeginsKeepsLog(s, t, w, k, x);
  }

  lemma NothingLogged(s: Shop, a: nat)
    requires SentOnce(s) && a >= |s.attempts|
    ensures !SentInLog(s.log, a) && !ClosedUnsent(s.log, a)
  { }

  lemma BeginKeepsLaw(s: Shop, w: Id, fenced: bool, methodActive: bool)
    requires JobLaw(s)
    ensures JobLaw(DoBegin(s, w, fenced, methodActive))
  {
    hide SentInLog;
    hide ClosedUnsent;
    hide OneChargeAttempt;
    hide OneOwner;
    hide SentOnce;
    hide UnsentStays;
    hide FinalizedOnce;
    hide Incomplete;
    hide ValidResult;
    var t := DoBegin(s, w, fenced, methodActive);
    if |t.attempts| == |s.attempts| {
      QuietKeepsLaw(s, t);
    } else {
      BeginsKeepsLaw(s, t, w, t.workers[w].pc.job, t.attempts[|s.attempts|]);
    }
  }

  /** The sender gives up its right to send, and one event is logged. */
  ghost predicate Sends(s: Shop, t: Shop, w: Id, a: nat, e: Event) {
    && w in s.workers && s.workers[w].pc.Sending? && s.workers[w].pc.attempt == a < |s.attempts|
    && e == (if s.attempts[a].operation.ChargeCall? then Charged(a) else Queried(a))
    && t == s.(log := s.log + [e], workers := t.workers)
    && w in t.workers && t.workers[w].pc.Recording? && t.workers[w].pc.attempt == a
    && t.workers[w].pc.source.Answered? && ValidResult(t.workers[w].pc.state)
    && (forall v :: v in t.workers && v != w ==> v in s.workers && t.workers[v].pc == s.workers[v].pc)
  }

  lemma LogGrows(log: seq<Event>, e: Event, b: nat)
    ensures SentInLog(log + [e], b) <==> SentInLog(log, b) || e == Charged(b)
    ensures ClosedUnsent(log + [e], b)
            <==> ClosedUnsent(log, b) || (e.AttemptClosed? && e.attempt == b && e.source.NotSent?)
  {
    var t := log + [e];
    assert t[|log|] == e;
    if SentInLog(log, b) {
      var i :| 0 <= i < |log| && log[i] == Charged(b);
      assert t[i] == Charged(b);
    }
    if ClosedUnsent(log, b) {
      var i :| 0 <= i < |log| && log[i].AttemptClosed? && log[i].attempt == b && log[i].source.NotSent?;
      assert t[i] == log[i];
    }
  }

  /** Only the owner of an attempt can still send it or report it unsent. */
  lemma SoleOwner(s: Shop, w: Id, a: nat)
    requires OneOwner(s) && w in s.workers && Owns(s.workers[w].pc, a)
    ensures forall v :: v in s.workers && v != w ==> !Owns(s.workers[v].pc, a)
  { }

  /** What the log says after a send. */
  ghost predicate LogAfterSend(s: Shop, t: Shop, e: Event) {
    && (forall b: nat :: SentInLog(t.log, b) <==> SentInLog(s.log, b) || e == Charged(b))
    && (forall b: nat :: ClosedUnsent(t.log, b) <==> ClosedUnsent(s.log, b))
  }

  lemma SendsLog(s: Shop, t: Shop, w: Id, a: nat, e: Event)
    requires Sends(s, t, w, a, e)
    ensures LogAfterSend(s, t, e)
  {
    forall b: nat ensures SentInLog(t.log, b) <==> SentInLog(s.log, b) || e == Charged(b) { LogGrows(s.log, e, b); }
    forall b: nat ensures ClosedUnsent(t.log, b) <==> ClosedUnsent(s.log, b) { LogGrows(s.log, e, b); }
  }

  lemma SendsKeepsWorkers(s: Shop, t: Shop, w: Id, a: nat, e: Event)
    requires OneOwner(s) && PcOk(s) && Sends(s, t, w, a, e) && LogAfterSend(s, t, e)
    ensures OneOwner(t) && PcOk(t)
  {
    SoleOwner(s, w, a);
    hide SentInLog;
    hide ClosedUnsent;
    hide ValidResult;
  }

  lemma SendsKeepsUnsent(s: Shop, t: Shop, w: Id, a: nat, e: Event)
    requires UnsentStays(s) && Sends(s, t, w, a, e) && LogAfterSend(s, t, e)
    ensures UnsentStays(t)
  {
    assert MaySend(s.workers[w].pc, a);
    hide SentInLog;
    hide ClosedUnsent;
    hide ValidResult;
  }

  lemma NotYetSent(s: Shop, w: Id, a: nat)
    requires SentOnce(s) && w in s.workers && MaySend(s.workers[w].pc, a)
    ensures forall i :: 0 <= i < |s.log| ==> s.log[i] != Charged(a)
  {
    assert !SentInLog(s.log, a);
  }

  lemma SendsKeepsLogged(s: Shop, t: Shop, w: Id, a: nat, e: Event)
    requires PcOk(s) && SentOnce(s) && Sends(s, t, w, a, e)
    ensures SendsLogged(t)
  {
    assert PcFacts(s, s.workers[w].pc);
    NotYetSent(s, w, a);
    hide PcOk;
    hide SentInLog;
    hide ValidResult;
  }

  lemma SendsKeepsSent(s: Shop, t: Shop, w: Id, a: nat, e: Event)
    requires OneOwner(s) && PcOk(s) && SentOnce(s) && Sends(s, t, w, a, e) && LogAfterSend(s, t, e)
    ensures SentOnce(t)
  {
    SoleOwner(s, w, a);
    SendsKeepsLogged(s, t, w, a, e);
    hide SendsLogged;
    hide OneOwner;
    hide PcOk;
    hide SentInLog;
    hide ClosedUnsent;
    hide ValidResult;
  }

  lemma SendsKeepsLaw(s: Shop, t: Shop, w: Id, a: nat, e: Event)
    requires JobLaw(s) && Sends(s, t, w, a, e)
    ensures JobLaw(t)
  {
    SendsLog(s, t, w, a, e);
    SendsKeepsWorkers(s, t, w, a, e);
    SendsKeepsUnsent(s, t, w, a, e);
    SendsKeepsSent(s, t, w, a, e);
    hide OneOwner;
    hide PcOk;
    hide SentOnce;
    hide UnsentStays;
    hide LogAfterSend;
  }

  lemma CallKeepsLaw(s: Shop, w: Id, answer: Answer)
    requires JobLaw(s)
    ensures JobLaw(DoCall(s, w, answer))
  {
    hide JobLaw;
    var t := DoCall(s, w, answer);
    if t != s {
      SendsKeepsLaw(s, t, w, s.workers[w].pc.attempt, t.log[|s.log|]);
    }
  }

  /** An open attempt gets its result, and the worker lets go of it. */
  ghost predicate Closes(s: Shop, t: Shop, w: Id, a: nat, st: IntentState, source: Source) {
    && w in s.workers && s.workers[w].pc.Recording? && s.workers[w].pc.attempt == a < |s.attempts|
    && s.workers[w].pc.state == st && s.workers[w].pc.source == source
    && s.attempts[a].result.None? && t.attempts == s.attempts[a := s.attempts[a].(result := Some(st))]
    && t.log == s.log + [AttemptClosed(a, st, source)]
    && (forall i :: i in s.intents ==> i in t.intents && (t.intents[i].Created? ==> s.intents[i].Created?))
    && (forall v :: v in t.workers ==>
          t.workers[v].pc.Idle? || (v in s.workers && v != w && t.workers[v].pc == s.workers[v].pc))
  }

  ghost predicate LogAfterClose(s: Shop, t: Shop, a: nat, source: Source) {
    && (forall b: nat :: SentInLog(t.log, b) <==> SentInLog(s.log, b))
    && (forall b: nat :: ClosedUnsent(t.log, b) <==> ClosedUnsent(s.log, b) || (b == a && source.NotSent?))
  }

  lemma ClosesLog(s: Shop, t: Shop, w: Id, a: nat, st: IntentState, source: Source)
    requires Closes(s, t, w, a, st, source)
    ensures LogAfterClose(s, t, a, source)
  {
    var e := AttemptClosed(a, st, source);
    forall b: nat ensures SentInLog(t.log, b) <==> SentInLog(s.log, b) { LogGrows(s.log, e, b); }
    forall b: nat ensures ClosedUnsent(t.log, b) <==> ClosedUnsent(s.log, b) || (b == a && source.NotSent?) {
      LogGrows(s.log, e, b);
    }
  }

  lemma ClosesKeepsWorkers(s: Shop, t: Shop, w: Id, a: nat, st: IntentState, source: Source)
    requires OneOwner(s) && PcOk(s) && Closes(s, t, w, a, st, source) && LogAfterClose(s, t, a, source)
    ensures OneOwner(t) && PcOk(t)
  {
    hide SentInLog;
    hide ClosedUnsent;
    hide ValidResult;
  }

  lemma ClosesKeepsUnsent(s: Shop, t: Shop, w: Id, a: nat, st: IntentState, source: Source)
    requires OneOwner(s) && PcOk(s) && UnsentStays(s) && Closes(s, t, w, a, st, source)
    requires LogAfterClose(s, t, a, source)
    ensures UnsentStays(t)
  {
    if !source.Recovered? { SoleOwner(s, w, a); }
    assert PcFacts(s, s.workers[w].pc);
    hide SentInLog;
    hide ClosedUnsent;
    hide ValidResult;
    hide OneOwner;
    hide PcOk;
  }

  lemma ClosesKeepsSent(s: Shop, t: Shop, w: Id, a: nat, st: IntentState, source: Source)
    requires SentOnce(s) && OneChargeAttempt(s) && Closes(s, t, w, a, st, source) && LogAfterClose(s, t, a, source)
    ensures SentOnce(t) && OneChargeAttempt(t)
  {
    hide SentInLog;
    hide ClosedUnsent;
    hide ValidResult;
  }

  lemma ClosesKeepsFinalized(s: Shop, t: Shop, w: Id, a: nat, st: IntentState, source: Source)
    requires PcOk(s) && FinalizedOnce(s) && Closes(s, t, w, a, st, source)
    ensures FinalizedOnce(t)
  {
    assert PcFacts(s, s.workers[w].pc);
    hide PcOk;
  }

  lemma ClosesKeepsLaw(s: Shop, t: Shop, w: Id, a: nat, st: IntentState, source: Source)
    requires JobLaw(s) && Closes(s, t, w, a, st, source)
    ensures JobLaw(t)
  {
    ClosesLog(s, t, w, a, st, source);
    ClosesKeepsWorkers(s, t, w, a, st, source);
    ClosesKeepsUnsent(s, t, w, a, st, source);
    ClosesKeepsSent(s, t, w, a, st, source);
    ClosesKeepsFinalized(s, t, w, a, st, source);
    hide OneOwner;
    hide PcOk;
    hide SentOnce;
    hide UnsentStays;
    hide FinalizedOnce;
    hide OneChargeAttempt;
    hide Closes;
    hide LogAfterClose;
  }

  lemma FinishKeepsLaw(s: Shop, w: Id, retryAt: Time, conflict: bool)
    requires JobLaw(s)
    ensures JobLaw(DoFinish(s, w, retryAt, conflict))
  {
    hide OneChargeAttempt;
    hide OneOwner;
    hide SentOnce;
    hide UnsentStays;
    hide FinalizedOnce;
    hide SentInLog;
    hide OpenJob;
    var t := DoFinish(s, w, retryAt, conflict);
    if t.log == s.log {
      QuietKeepsLaw(s, t);
    } else {
      var pc := s.workers[w].pc;
      ClosesKeepsLaw(s, t, w, pc.attempt, pc.state, pc.source);
    }
  }

  lemma StepKeepsLaw(s: Shop, op: Op)
    requires JobLaw(s)
    ensures JobLaw(Step(s, op))
  {
    assert PcOk(s);
    hide JobLaw;
    hide DoBegin;
    hide DoPrepare;
    hide DoRecover;
    hide DoCall;
    hide DoFinish;
    match op
    case BeginNext(w, fenced, methodActive) => BeginKeepsLaw(s, w, fenced, methodActive);
    case Prepare(w, route) => PrepareIsQuiet(s, w, route); QuietKeepsLaw(s, Step(s, op));
    case CallProvider(w, answer) => CallKeepsLaw(s, w, answer);
    case Recover(w) => RecoverIsQuiet(s, w); QuietKeepsLaw(s, Step(s, op));
    case Finish(w, retryAt, conflict) => FinishKeepsLaw(s, w, retryAt, conflict);
    case _ => QuietSteps(s, op); QuietKeepsLaw(s, Step(s, op));
  }

  lemma {:induction false} RunKeepsLaw(ops: seq<Op>)
    ensures JobLaw(Run(ops))
  {
    hide Step;
    if |ops| > 0 {
      RunKeepsLaw(ops[..|ops| - 1]);
      StepKeepsLaw(Run(ops[..|ops| - 1]), ops[|ops| - 1]);
    }
  }

  // ---------------------------------------------------------------- what the world sees

  /** The provider is charged at most once per intent, whoever leases, steals, crashes, recovers or retries. */
  lemma ChargedAtMostOnce(ops: seq<Op>, i: nat, j: nat)
    requires i < |Run(ops).log| && j < |Run(ops).log| && Run(ops).log[i].Charged? && Run(ops).log[j].Charged?
    ensures Run(ops).log[i].attempt < |Run(ops).attempts| && Run(ops).log[j].attempt < |Run(ops).attempts|
    ensures Run(ops).attempts[Run(ops).log[i].attempt].intent == Run(ops).attempts[Run(ops).log[j].attempt].intent ==>
              i == j
  {
    RunKeepsLaw(ops);
    hide Run;
    var s := Run(ops);
    var a, b := s.attempts[s.log[i].attempt], s.attempts[s.log[j].attempt];
    assert a.intent == b.intent ==> SameCharge(a, b);
  }

  /** Each attempt is finalized at most once, with the result its row keeps; recovery only ever says Unknown. */
  lemma FinalizedAtMostOnce(ops: seq<Op>, i: nat, j: nat)
    requires i < |Run(ops).log| && j < |Run(ops).log| && SameClosing(Run(ops).log[i], Run(ops).log[j])
    ensures i == j
    ensures Run(ops).log[i].attempt < |Run(ops).attempts|
    ensures Run(ops).attempts[Run(ops).log[i].attempt].result == Some(Run(ops).log[i].state)
    ensures Run(ops).log[i].source.Recovered? ==> Run(ops).log[i].state.Unknown?
  {
    RunKeepsLaw(ops);
  }

  /** An intent whose charge attempt was closed as never sent is never charged, before or after. */
  lemma UnsentMeansNeverCharged(ops: seq<Op>, i: nat, j: nat)
    requires i < |Run(ops).log| && j < |Run(ops).log| && Run(ops).log[i].AttemptClosed?
    requires Run(ops).log[i].source.NotSent?
    requires Run(ops).log[j].Charged?
    ensures Run(ops).log[i].attempt < |Run(ops).attempts| && Run(ops).log[j].attempt < |Run(ops).attempts|
    ensures Run(ops).attempts[Run(ops).log[i].attempt].operation.ChargeCall? ==>
              Run(ops).attempts[Run(ops).log[i].attempt].intent != Run(ops).attempts[Run(ops).log[j].attempt].intent
  {
    RunKeepsLaw(ops);
    hide Run;
    var s := Run(ops);
    assert ClosedUnsent(s.log, s.log[i].attempt);
    assert SentInLog(s.log, s.log[j].attempt);
    var a, b := s.attempts[s.log[i].attempt], s.attempts[s.log[j].attempt];
    assert a.operation.ChargeCall? && a.intent == b.intent ==> SameCharge(a, b);
  }

  // ---------------------------------------------------------------- a charge that goes through

  const JOB: Job := Job("i", ChargeJob, 0, Pending)
  const LEASED: Job := JOB.(lease := Leased("o", 1))
  const BEGUN: Attempt := Attempt("i", ChargeCall, false, None)
  const MARKED: Attempt := BEGUN.(digest := true)

  /** One intent, its job, its attempts, and one worker at pc. */
  function Stage(job: Job, state: IntentState, attempts: seq<Attempt>, queue: seq<nat>, pc: Pc, log: seq<Event>): Shop {
    Shop([job], map["i" := state], attempts, map["w" := Worker("o", queue, pc)], log)
  }

  const CHARGED: Shop :=
    Stage(LEASED, Processing, [MARKED], [], Recording(0, 0, Succeeded, Answered), [Charged(0)])
  const PAID: Shop :=
    Stage(LEASED.(lease := JobCompleted), Succeeded, [MARKED.(result := Some(Succeeded))], [], Idle,
          [Charged(0), AttemptClosed(0, Succeeded, Answered)])

  lemma Queued() returns (ops: seq<Op>)
    ensures Run(ops) == Stage(JOB, Created, [], [], Idle, [])
  {
    var one, two := [CreateIntent("i")], [CreateIntent("i")] + [AddJob(JOB)];
    RunNext([], CreateIntent("i"));
    assert [] + [CreateIntent("i")] == one;
    RunNext(one, AddJob(JOB));
    RunNext(two, StartWorker("w", "o"));
    ops := two + [StartWorker("w", "o")];
  }

  lemma Claims()
    ensures Step(Stage(JOB, Created, [], [], Idle, []), Claim("w", [0], 1, 0, 20))
            == Stage(LEASED, Created, [], [0], Idle, [])
  {
    var jobs, picked, none: seq<nat> := [JOB], [0], [];
    assert picked[..|picked| - 1] == none;
    assert ClaimPaymentJobs(jobs, none, 1, 0, "o", 20) == (jobs, none);
    assert jobs[0 := LEASED] == [LEASED] && none + [0] == picked;
    assert ClaimPaymentJobs(jobs, picked, 1, 0, "o", 20) == ([LEASED], picked);
  }

  lemma BeginsIt()
    ensures Step(Stage(LEASED, Created, [], [0], Idle, []), BeginNext("w", false, true))
            == Stage(LEASED, Processing, [BEGUN], [], Fresh(0, 0), [])
  {
    assert [0][1..] == [];
    assert Incomplete([], "i", ChargeCall).None?;
  }

  lemma MarksIt()
    ensures Step(Stage(LEASED, Processing, [BEGUN], [], Fresh(0, 0), []), Op.Prepare("w", Send))
            == Stage(LEASED, Processing, [MARKED], [], Sending(0, 0), [])
  {
    assert [BEGUN][0 := MARKED] == [MARKED];
  }

  lemma SendsIt()
    ensures Step(Stage(LEASED, Processing, [MARKED], [], Sending(0, 0), []), CallProvider("w", Reports(Succeeded)))
            == CHARGED
  {
    assert [] + [Charged(0)] == [Charged(0)];
  }

  lemma ClosesIt()
    ensures Step(CHARGED, Finish("w", 9, false)) == PAID
  {
    hide OpenJob;
    assert [MARKED][0 := MARKED.(result := Some(Succeeded))] == PAID.attempts;
    assert [LEASED][0 := LEASED.(lease := JobCompleted)] == PAID.jobs;
    assert CHARGED.log + [AttemptClosed(0, Succeeded, Answered)] == PAID.log;
    assert CHARGED.intents["i" := Succeeded] == PAID.intents;
  }

  /** The laws above are about runs in which charges happen: this one charges an intent and settles it. */
  lemma ChargeGoesThrough() returns (ops: seq<Op>)
    ensures Run(ops) == PAID
  {
    ops := Queued();
    Claims();
    BeginsIt();
    MarksIt();
    SendsIt();
    ClosesIt();
    hide Step;
    hide Run;
    RunNext(ops, Claim("w", [0], 1, 0, 20));
    ops := ops + [Claim("w", [0], 1, 0, 20)];
    RunNext(ops, BeginNext("w", false, true));
    ops := ops + [BeginNext("w", false, true)];
    RunNext(ops, Op.Prepare("w", Send));
    ops := ops + [Op.Prepare("w", Send)];
    RunNext(ops, CallProvider("w", Reports(Succeeded)));
    ops := ops + [CallProvider("w", Reports(Succeeded))];
    RunNext(ops, Finish("w", 9, false));
    ops := ops + [Finish("w", 9, false)];
  }
}
