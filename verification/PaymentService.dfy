/** The payment worker as the program it is: store transactions on jobs, intents and attempts, and ProcessJob,
    which sequences them around the provider call. Run by itself, ProcessJob is a run of the worker steps, so
    what holds of all interleavings of steps holds of any number of concurrent ProcessJob calls. */
module PaymentService {
  import opened Common
  import opened Account
  import opened PaymentJobs

  /** What the outside answers during one call. */
  datatype Outside = Outside(
    handoffFenced: bool, methodActive: bool, route: Route, answer: Answer, retryAt: Time, conflict: bool)

  datatype Work = NewAttempt(attempt: nat) | Incomplete(attempt: nat) | Unactionable | BeginFailed

  class Service {
    var jobs: seq<Job>
    var intents: map<Id, IntentState>
    var attempts: seq<Attempt>
    /** Where each worker stands, and what the world saw. */
    ghost var workers: map<Id, Worker>
    ghost var log: seq<Event>
    ghost var history: seq<PaymentJobs.Op>

    ghost function View(): Shop
      reads this
    {
      Shop(jobs, intents, attempts, workers, log)
    }

    ghost predicate Valid()
      reads this
    {
      View() == PaymentJobs.Run(history)
    }

    constructor ()
      ensures Valid() && history == []
    {
      jobs, intents, attempts := [], map[], [];
      workers, log, history := map[], [], [];
    }

    ghost method Remember(before: Shop, op: PaymentJobs.Op)
      requires before == PaymentJobs.Run(history) && View() == PaymentJobs.Step(before, op)
      modifies this`history
      ensures Valid() && history == old(history) + [op]
    {
      RunNext(history, op);
      hide PaymentJobs.Run;
      hide PaymentJobs.Step;
      history := history + [op];
    }

    method BeginProviderAttempt(k: nat, owner: Id, op: Operation, outside: Outside) returns (r: Work)
      modifies this`intents, this`attempts
      ensures Reported(old(View()),
                       PaymentJobs.BeginProviderAttempt(old(View()), k, owner, op, outside.handoffFenced,
                                                        outside.methodActive),
                       View(), r)
    {
      hide PaymentJobs.Incomplete;
      if k >= |jobs| || !jobs[k].lease.Leased? || jobs[k].lease.owner != owner { return BeginFailed; }
      var job := jobs[k];
      if job.intent !in intents { return BeginFailed; }
      var st := intents[job.intent];
      if Terminal(st) { return Unactionable; }
      var existing := PaymentJobs.Incomplete(attempts, job.intent, op);
      if existing.Some? { return Work.Incomplete(existing.value); }
      if op.ChargeCall? {
        if outside.handoffFenced { return BeginFailed; }
        if !job.reason.ChargeJob? || !st.Created? { return Unactionable; }
        if !outside.methodActive { return BeginFailed; }
        intents := intents[job.intent := Processing];
      } else if job.reason.ChargeJob? || !Queryable(st) {
        return Unactionable;
      }
      attempts := attempts + [Attempt(job.intent, op, false, None)];
      return NewAttempt(|attempts| - 1);
    }

    method SetAttemptRequestDigest(a: nat) returns (ok: bool)
      modifies this`attempts
      ensures var r := PaymentJobs.SetAttemptRequestDigest(old(View()), a);
              ok == r.Some? && View() == (if r.Some? then r.value else old(View()))
    {
      if a >= |attempts| || attempts[a].digest || attempts[a].result.Some? { return false; }
      attempts := attempts[a := attempts[a].(digest := true)];
      return true;
    }

    method FinalizeProviderAttempt(
      k: nat, owner: Id, a: nat, st: IntentState, ghost source: Source, outside: Outside) returns (ok: bool)
      modifies this`jobs, this`intents, this`attempts, this`log
      ensures var r := PaymentJobs.FinalizeProviderAttempt(old(View()), k, owner, a, st, source, outside.retryAt,
                                                           outside.conflict);
              ok == r.Some? && View() == (if r.Some? then r.value else old(View()))
    {
      hide OpenJob;
      if !ValidResult(st) { return false; }
      if k >= |jobs| || !jobs[k].lease.Leased? || jobs[k].lease.owner != owner { return false; }
      if a >= |attempts| || attempts[a].intent != jobs[k].intent { return false; }
      if attempts[a].result.Some? { return true; }
      var job := jobs[k];
      if job.intent !in intents || outside.conflict || !CanTransition(intents[job.intent], st) { return false; }
      attempts := attempts[a := attempts[a].(result := Some(st))];
      intents := intents[job.intent := st];
      if st.Unknown? && job.reason.UnknownJob? {
        jobs := jobs[k := job.(lease := Pending, due := outside.retryAt)];
      } else {
        jobs := jobs[k := job.(lease := JobCompleted)];
        if st.Unknown? && !OpenJob(jobs, job.intent, UnknownJob) {
          jobs := jobs + [Job(job.intent, UnknownJob, outside.retryAt, Pending)];
        }
      }
      log := log + [AttemptClosed(a, st, source)];
      return true;
    }

    method CompletePaymentJob(k: nat, owner: Id) returns (ok: bool)
      modifies this`jobs
      ensures ok == HoldsLease(old(View()), k, owner)
      ensures View() == (if ok then old(View()).(jobs := old(jobs)[k := old(jobs)[k].(lease := JobCompleted)])
                         else old(View()))
    {
      if k >= |jobs| || !jobs[k].lease.Leased? || jobs[k].lease.owner != owner { return false; }
      jobs := jobs[k := jobs[k].(lease := JobCompleted)];
      return true;
    }

    // ------------------------------------------------------------ ProcessJob, stage by stage

    /** Worker w, leasing as `owner`, stands at `pc`. */
    ghost predicate StandsAt(w: Id, owner: Id, pc: Pc)
      reads this
    {
      w in workers && workers[w].owner == owner && workers[w].pc == pc
    }

    method BeginStage(ghost w: Id, owner: Id, k: nat, outside: Outside) returns (r: Work)
      requires Valid() && StandsAt(w, owner, Idle) && |workers[w].queue| > 0 && workers[w].queue[0] == k < |jobs|
      modifies this
      ensures Valid() && history == old(history) + [BeginNext(w, outside.handoffFenced, outside.methodActive)]
      ensures match r
              case NewAttempt(a) => a < |attempts| && StandsAt(w, owner, Fresh(k, a))
              case Incomplete(a) => a < |attempts| && StandsAt(w, owner, Recovering(k, a, !attempts[a].digest))
              case Unactionable => StandsAt(w, owner, Closing(k))
              case BeginFailed => StandsAt(w, owner, Idle)
    {
      hide PaymentJobs.Run;
      hide PaymentJobs.BeginProviderAttempt;
      hide PaymentJobs.Step;
      ghost var before := View();
      var op := QueryCall;
      if jobs[k].reason.ChargeJob? { op := ChargeCall; }
      workers := workers[w := workers[w].(queue := workers[w].queue[1..])];
      r := BeginProviderAttempt(k, owner, op, outside);
      BeginLands(before, w, k, outside, View(), r);
      workers := workers[w := Landed(View(), w, k, r)];
      Remember(before, BeginNext(w, outside.handoffFenced, outside.methodActive));
    }

    /** The charge branches that send nothing, or the digest that must be durable before anything is sent. */
    method PrepareStage(ghost w: Id, owner: Id, k: nat, a: nat, outside: Outside) returns (unsent: Option<IntentState>)
      requires Valid() && StandsAt(w, owner, Fresh(k, a)) && a < |attempts|
      modifies this
      ensures Valid() && history == old(history) + [PaymentJobs.Op.Prepare(w, outside.route)]
      ensures |attempts| == |old(attempts)|
      ensures unsent.None? ==> StandsAt(w, owner, Sending(k, a)) && attempts[a].digest
      ensures unsent.Some? ==> StandsAt(w, owner, Recording(k, a, unsent.value, NotSent))
    {
      hide PaymentJobs.Run;
      ghost var before := View();
      var charging := attempts[a].operation.ChargeCall?;
      if outside.route.NoProvider? || (outside.route.NoMethod? && charging) {
        unsent := Some(Failed);
      } else {
        var ok := SetAttemptRequestDigest(a);
        if !ok {
          unsent := Some(Unknown);
        } else if outside.route.Disabled? && charging {
          unsent := Some(Failed);
        } else {
          unsent := None;
        }
      }
      workers := workers[w := workers[w].(pc := if unsent.Some? then Recording(k, a, unsent.value, NotSent)
                                                else Sending(k, a))];
      Remember(before, PaymentJobs.Op.Prepare(w, outside.route));
    }

    /** The one place that reaches the provider. */
    method CallStage(ghost w: Id, owner: Id, k: nat, a: nat, outside: Outside) returns (st: IntentState)
      requires Valid() && StandsAt(w, owner, Sending(k, a)) && a < |attempts|
      modifies this`workers, this`log, this`history
      ensures Valid() && history == old(history) + [CallProvider(w, outside.answer)]
      ensures StandsAt(w, owner, Recording(k, a, st, Answered))
      ensures st == ResultOf(attempts[a].operation, outside.answer)
    {
      hide PaymentJobs.Run;
      ghost var before := View();
      st := ResultOf(attempts[a].operation, outside.answer);
      log := log + [if attempts[a].operation.ChargeCall? then Charged(a) else Queried(a)];
      workers := workers[w := workers[w].(pc := Recording(k, a, st, Answered))];
      Remember(before, CallProvider(w, outside.answer));
    }

    /** An attempt someone left open: nothing is sent, and nobody can tell what happened to it. */
    method RecoverStage(ghost w: Id, owner: Id, k: nat, a: nat, needsDigest: bool) returns (ok: bool)
      requires Valid() && StandsAt(w, owner, Recovering(k, a, needsDigest)) && a < |attempts|
      modifies this
      ensures Valid() && history == old(history) + [Recover(w)] && |attempts| == |old(attempts)|
      ensures StandsAt(w, owner, if ok then Recording(k, a, Unknown, Recovered) else Idle)
    {
      hide PaymentJobs.Run;
      ghost var before := View();
      ok := true;
      if needsDigest { ok := SetAttemptRequestDigest(a); }
      if ok {
        workers := workers[w := workers[w].(pc := Recording(k, a, Unknown, Recovered))];
      } else {
        workers := workers[w := workers[w].(pc := Idle, queue := [])];
      }
      Remember(before, Recover(w));
    }

    method FinalizeStage(
      ghost w: Id, owner: Id, k: nat, a: nat, st: IntentState, ghost source: Source, outside: Outside)
      returns (ok: bool)
      requires Valid() && StandsAt(w, owner, Recording(k, a, st, source))
      modifies this
      ensures Valid() && history == old(history) + [Finish(w, outside.retryAt, outside.conflict)]
      ensures StandsAt(w, owner, Idle)
    {
      hide PaymentJobs.Run;
      hide PaymentJobs.FinalizeProviderAttempt;
      ghost var before := View();
      FinalizeKeepsWorkers(before, k, owner, a, st, source, outside);
      ok := FinalizeProviderAttempt(k, owner, a, st, source, outside);
      if ok {
        workers := workers[w := workers[w].(pc := Idle)];
      } else {
        workers := workers[w := workers[w].(pc := Idle, queue := [])];
      }
      Remember(before, Finish(w, outside.retryAt, outside.conflict));
    }

    method CloseStage(ghost w: Id, owner: Id, k: nat) returns (ok: bool)
      requires Valid() && StandsAt(w, owner, Closing(k))
      modifies this
      ensures Valid() && history == old(history) + [CompleteJob(w)]
      ensures StandsAt(w, owner, Idle)
    {
      hide PaymentJobs.Run;
      ghost var before := View();
      ok := CompletePaymentJob(k, owner);
      if ok {
        workers := workers[w := workers[w].(pc := Idle)];
      } else {
        workers := workers[w := workers[w].(pc := Idle, queue := [])];
      }
      Remember(before, CompleteJob(w));
    }

    /** ProcessJob takes steps of its own worker only and ends with nothing in flight. */
    method ProcessJob(ghost w: Id, owner: Id, k: nat, outside: Outside) returns (ok: bool)
      requires Valid() && StandsAt(w, owner, Idle) && |workers[w].queue| > 0 && workers[w].queue[0] == k < |jobs|
      modifies this
      ensures Valid() && StandsAt(w, owner, Idle)
      ensures Extends(old(history), history, w)
    {
      hide PaymentJobs.Run;
      hide Extends;
      ghost var h := history;
      var work := BeginStage(w, owner, k, outside);
      ExtendsBy(h, h, w, BeginNext(w, outside.handoffFenced, outside.methodActive));
      match work {
        case BeginFailed => return false;
        case Unactionable =>
          ExtendsBy(h, history, w, CompleteJob(w));
          ok := CloseStage(w, owner, k);
        case Incomplete(a) =>
          ExtendsBy(h, history, w, Recover(w));
          ok := RecoverStage(w, owner, k, a, !attempts[a].digest);
          if !ok { return; }
          ExtendsBy(h, history, w, Finish(w, outside.retryAt, outside.conflict));
          ok := FinalizeStage(w, owner, k, a, Unknown, Recovered, outside);
        case NewAttempt(a) =>
          ExtendsBy(h, history, w, PaymentJobs.Op.Prepare(w, outside.route));
          var unsent := PrepareStage(w, owner, k, a, outside);
          if unsent.Some? {
            ExtendsBy(h, history, w, Finish(w, outside.retryAt, outside.conflict));
            ok := FinalizeStage(w, owner, k, a, unsent.value, NotSent, outside);
          } else {
            ExtendsBy(h, history, w, CallProvider(w, outside.answer));
            var st := CallStage(w, owner, k, a, outside);
            ExtendsBy(h, history, w, Finish(w, outside.retryAt, outside.conflict));
            ok := FinalizeStage(w, owner, k, a, st, Answered, outside);
          }
      }
    }
  }

  predicate ByWorker(op: PaymentJobs.Op, w: Id) {
    (op.BeginNext? || op.CompleteJob? || op.Prepare? || op.CallProvider? || op.Recover? || op.Finish?) && op.w == w
  }

  /** The later history adds only steps of w. */
  ghost predicate Extends(h: seq<PaymentJobs.Op>, t: seq<PaymentJobs.Op>, w: Id) {
    h <= t && forall i :: |h| <= i < |t| ==> ByWorker(t[i], w)
  }

  lemma ExtendsBy(h: seq<PaymentJobs.Op>, t: seq<PaymentJobs.Op>, w: Id, op: PaymentJobs.Op)
    requires (h == t || Extends(h, t, w)) && ByWorker(op, w)
    ensures Extends(h, t + [op], w)
  { }

  lemma BeginIsStep(s: Shop, w: Id, fenced: bool, methodActive: bool)
    ensures PaymentJobs.Step(s, BeginNext(w, fenced, methodActive)) == DoBegin(s, w, fenced, methodActive)
  {
    hide DoBegin;
  }

  /** The transaction's result, as BeginProviderAttempt reports it. */
  ghost predicate Reported(s: Shop, b: Begin, t: Shop, r: Work) {
    match b
    case Begun(u, a) => t == u && r == NewAttempt(a)
    case Existing(a) => t == s && r == Incomplete(a)
    case NotActionable => t == s && r == Unactionable
    case Refused => t == s && r == BeginFailed
  }

  /** Where the worker stands after it. */
  ghost function Landed(t: Shop, w: Id, k: nat, r: Work): Worker
    requires w in t.workers
  {
    match r
    case NewAttempt(a) => t.workers[w].(pc := Fresh(k, a))
    case Incomplete(a) => t.workers[w].(pc := Recovering(k, a, a < |t.attempts| && !t.attempts[a].digest))
    case Unactionable => t.workers[w].(pc := Closing(k))
    case BeginFailed => t.workers[w].(pc := Idle, queue := [])
  }

  ghost predicate AtJob(s: Shop, w: Id, k: nat) {
    && w in s.workers && s.workers[w].pc.Idle? && |s.workers[w].queue| > 0
    && s.workers[w].queue[0] == k < |s.jobs|
  }

  lemma BeginLands(s: Shop, w: Id, k: nat, outside: Outside, t: Shop, r: Work)
    requires AtJob(s, w, k)
    requires var popped := s.(workers := s.workers[w := s.workers[w].(queue := s.workers[w].queue[1..])]);
             var op := if s.jobs[k].reason.ChargeJob? then ChargeCall else QueryCall;
             Reported(popped, PaymentJobs.BeginProviderAttempt(popped, k, s.workers[w].owner, op, outside.handoffFenced,
                                                               outside.methodActive), t, r)
    ensures w in t.workers && t.workers[w].owner == s.workers[w].owner && t.workers[w].pc.Idle?
    ensures r.NewAttempt? || r.Incomplete? ==> r.attempt < |t.attempts|
    ensures PaymentJobs.Step(s, BeginNext(w, outside.handoffFenced, outside.methodActive))
            == t.(workers := t.workers[w := Landed(t, w, k, r)])
  {
    var popped := s.(workers := s.workers[w := s.workers[w].(queue := s.workers[w].queue[1..])]);
    var op := if s.jobs[k].reason.ChargeJob? then ChargeCall else QueryCall;
    BeginBounds(popped, k, s.workers[w].owner, op, outside.handoffFenced, outside.methodActive);
    BeginIsStep(s, w, outside.handoffFenced, outside.methodActive);
    hide PaymentJobs.BeginProviderAttempt;
    hide PaymentJobs.Step;
  }

  lemma BeginBounds(s: Shop, k: nat, owner: Id, op: Operation, fenced: bool, methodActive: bool)
    ensures match PaymentJobs.BeginProviderAttempt(s, k, owner, op, fenced, methodActive)
            case Begun(t, a) => a < |t.attempts| && t.workers == s.workers && t.log == s.log
            case Existing(a) => a < |s.attempts|
            case _ => true
  {
    hide PaymentJobs.Incomplete;
  }

  lemma FinalizeKeepsWorkers(s: Shop, k: nat, owner: Id, a: nat, st: IntentState, source: Source, outside: Outside)
    ensures var r := PaymentJobs.FinalizeProviderAttempt(s, k, owner, a, st, source, outside.retryAt, outside.conflict);
            r.Some? ==> r.value.workers == s.workers
  {
    hide OpenJob;
  }
}
