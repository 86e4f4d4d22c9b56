/** What each step of a payment job does, exactly: when an attempt begins, what a provider's answer is taken to
    mean, what closing an attempt leaves behind. */
module PaymentOutcomes {
  import opened Common
  import opened Account
  import opened PaymentJobs

  // ---------------------------------------------------------------- beginning

  predicate Over(st: IntentState) { st.Succeeded? || st.Failed? || st.Canceled? }

  /** The owner holds the lease of a job whose intent is on file. */
  predicate Leasing(s: Shop, k: nat, owner: Id) {
    && k < |s.jobs| && s.jobs[k].lease.Leased? && s.jobs[k].lease.owner == owner && s.jobs[k].intent in s.intents
  }

  /** An attempt of this kind is still open. */
  predicate OpenAttempt(s: Shop, intent: Id, op: Operation) {
    exists a :: 0 <= a < |s.attempts| && s.attempts[a].intent == intent && s.attempts[a].operation == op
      && s.attempts[a].result.None?
  }

  /** A charge begins only for a charge job of an intent that was never sent, outside a handoff, with a live method; a
      query only for another kind of job of an intent that may have been. */
  predicate Startable(s: Shop, k: nat, op: Operation, handoffFenced: bool, methodActive: bool)
    requires k < |s.jobs| && s.jobs[k].intent in s.intents
  {
    var st := s.intents[s.jobs[k].intent];
    if op.ChargeCall? then s.jobs[k].reason.ChargeJob? && st.Created? && !handoffFenced && methodActive
    else !s.jobs[k].reason.ChargeJob? && !st.Created? && !Over(st)
  }

  lemma OpenFound(s: Shop, intent: Id, op: Operation)
    ensures Incomplete(s.attempts, intent, op).Some? <==> OpenAttempt(s, intent, op)
  { }

  /** Exactly when an attempt begins, and what it leaves: an open attempt without digest, and, for a charge, the
      intent in processing. An open attempt of the kind is handed out for recovery instead. */
  lemma BeginIff(s: Shop, k: nat, owner: Id, op: Operation, fenced: bool, methodActive: bool)
    ensures var r := BeginProviderAttempt(s, k, owner, op, fenced, methodActive);
            && (r.Begun? <==>
                  && Leasing(s, k, owner) && !Over(s.intents[s.jobs[k].intent])
                  && !OpenAttempt(s, s.jobs[k].intent, op) && Startable(s, k, op, fenced, methodActive))
            && (r.Existing? <==>
                  Leasing(s, k, owner) && !Over(s.intents[s.jobs[k].intent]) && OpenAttempt(s, s.jobs[k].intent, op))
            && (r.Begun? ==>
                  var i := s.jobs[k].intent;
                  && r.attempt == |s.attempts|
                  && r.shop == s.(attempts := s.attempts + [Attempt(i, op, false, None)],
                                  intents := if op.ChargeCall? then s.intents[i := Processing] else s.intents))
  {
    if k < |s.jobs| { OpenFound(s, s.jobs[k].intent, op); }
    hide Incomplete;
    hide OpenAttempt;
  }

  // ---------------------------------------------------------------- what an answer means

  /** A provider's report is taken at its word if it is a result at all; a query that fails proves nothing; a charge
      that fails means what its error says, and nothing else does. */
  lemma AnswerMeans(op: Operation, answer: Answer)
    ensures var st := ResultOf(op, answer);
            && !st.Created? && !st.Processing?
            && (answer.Reports? && !answer.state.Created? && !answer.state.Processing? ==> st == answer.state)
            && (op.QueryCall? && answer.Errors? ==> st.Unknown?)
            && (op.ChargeCall? && answer.Errors? && !answer.mapped.Created? && !answer.mapped.Processing? ==>
                  st == answer.mapped)
            && (answer.Reports? && (answer.state.Created? || answer.state.Processing?) ==> st.Unknown?)
  { }

  // ---------------------------------------------------------------- closing

  /** A reconciliation of the intent is waiting or under way. */
  predicate Followed(s: Shop, intent: Id) {
    exists k :: 0 <= k < |s.jobs| && s.jobs[k].intent == intent && s.jobs[k].reason.UnknownJob?
      && !s.jobs[k].lease.JobCompleted?
  }

  /** Every job but k is untouched. */
  ghost predicate OtherJobsKept(a: seq<Job>, b: seq<Job>, k: nat) {
    |a| <= |b| && forall j :: 0 <= j < |a| && j != k ==> b[j] == a[j]
  }

  predicate Closable(s: Shop, k: nat, owner: Id, a: nat, st: IntentState) {
    && k < |s.jobs| && s.jobs[k].lease.Leased? && s.jobs[k].lease.owner == owner
    && a < |s.attempts| && s.attempts[a].intent == s.jobs[k].intent && !st.Created? && !st.Processing?
  }

  /** Closing an attempt: exactly when it works, and that attempt, intent and log then all say the same result. The
      job is done, except that an unknown result of a reconciliation puts it back, and any unknown result leaves one
      open. */
  lemma CloseIff(s: Shop, k: nat, owner: Id, a: nat, st: IntentState, source: Source, retryAt: Time, conflict: bool)
    ensures var r := FinalizeProviderAttempt(s, k, owner, a, st, source, retryAt, conflict);
            && (r.Some? <==>
                  && Closable(s, k, owner, a, st)
                  && (s.attempts[a].result.Some? ||
                      (!conflict && s.jobs[k].intent in s.intents && CanTransition(s.intents[s.jobs[k].intent], st))))
            && (r.Some? && s.attempts[a].result.Some? ==> r.value == s)
            && (r.Some? && s.attempts[a].result.None? ==> Closed(s, r.value, k, a, st, source, retryAt))
  {
    var r := FinalizeProviderAttempt(s, k, owner, a, st, source, retryAt, conflict);
    if r.Some? && s.attempts[a].result.None? { JobsAfter(s, r.value, k, st, retryAt); }
    hide OpenJob;
    hide CanTransition;
    hide Followed;
  }

  ghost predicate Closed(s: Shop, t: Shop, k: nat, a: nat, st: IntentState, source: Source, retryAt: Time)
    requires k < |s.jobs| && a < |s.attempts|
  {
    var i := s.jobs[k].intent;
    && t.attempts == s.attempts[a := s.attempts[a].(result := Some(st))] && t.intents == s.intents[i := st]
    && t.log == s.log + [AttemptClosed(a, st, source)] && t.workers == s.workers
    && JobClosed(s.jobs, t.jobs, k, st, retryAt) && (st.Unknown? ==> Followed(t, i))
  }

  ghost predicate JobClosed(a: seq<Job>, b: seq<Job>, k: nat, st: IntentState, retryAt: Time)
    requires k < |a|
  {
    && OtherJobsKept(a, b, k)
    && b[k] == (if st.Unknown? && a[k].reason.UnknownJob? then a[k].(lease := Pending, due := retryAt)
                else a[k].(lease := JobCompleted))
    && |b| <= |a| + 1
    && (|b| > |a| ==> st.Unknown? && b[|a|] == Job(a[k].intent, UnknownJob, retryAt, Pending))
  }

  lemma JobsAfter(s: Shop, t: Shop, k: nat, st: IntentState, retryAt: Time)
    requires k < |s.jobs|
    requires var i := s.jobs[k].intent; var requeue := st.Unknown? && s.jobs[k].reason.UnknownJob?;
             var closed := s.jobs[k := if requeue then s.jobs[k].(lease := Pending, due := retryAt)
                                       else s.jobs[k].(lease := JobCompleted)];
             t.jobs == if st.Unknown? && !requeue && !OpenJob(closed, i, UnknownJob)
                       then closed + [Job(i, UnknownJob, retryAt, Pending)] else closed
    ensures JobClosed(s.jobs, t.jobs, k, st, retryAt) && (st.Unknown? ==> Followed(t, s.jobs[k].intent))
  {
    var i := s.jobs[k].intent;
    if st.Unknown? {
      if s.jobs[k].reason.UnknownJob? {
        assert t.jobs[k].reason.UnknownJob? && !t.jobs[k].lease.JobCompleted?;
      } else if |t.jobs| > |s.jobs| {
        assert t.jobs[|s.jobs|] == Job(i, UnknownJob, retryAt, Pending);
      }
    }
  }

  /** Whatever the step: an attempt it closes as Unknown leaves a reconciliation of its intent open. */
  lemma UnknownIsFollowed(s: Shop, op: PaymentJobs.Op, n: nat)
    requires |s.log| <= n < |PaymentJobs.Step(s, op).log| && PaymentJobs.Step(s, op).log[n].AttemptClosed?
    requires PaymentJobs.Step(s, op).log[n].state.Unknown?
    ensures PaymentJobs.Step(s, op).log[n].attempt < |s.attempts|
    ensures Followed(PaymentJobs.Step(s, op), s.attempts[PaymentJobs.Step(s, op).log[n].attempt].intent)
  {
    hide OpenJob;
    hide BeginProviderAttempt;
    hide SetAttemptRequestDigest;
    hide FinalizeProviderAttempt;
    hide ClaimPaymentJobs;
    hide Followed;
    if op.BeginNext? { BeginLogsNothing(s, op.w, op.handoffFenced, op.methodActive); }
    if op.Prepare? || op.Recover? { MarksLogNothing(s); }
    if op.Finish? && op.w in s.workers && s.workers[op.w].pc.Recording? {
      var pc := s.workers[op.w].pc;
      CloseIff(s, pc.job, s.workers[op.w].owner, pc.attempt, pc.state, pc.source, op.retryAt, op.conflict);
      FollowedIgnoresWorkers(PaymentJobs.Step(s, op));
    }
  }

  lemma FollowedIgnoresWorkers(s: Shop)
    ensures forall w, i :: Followed(s.(workers := w), i) == Followed(s, i)
  { }

  lemma BeginLogsNothing(s: Shop, w: Id, fenced: bool, methodActive: bool)
    ensures DoBegin(s, w, fenced, methodActive).log == s.log
  {
    hide Incomplete;
  }

  lemma MarksLogNothing(s: Shop)
    ensures forall a: nat :: SetAttemptRequestDigest(s, a).Some? ==> SetAttemptRequestDigest(s, a).value.log == s.log
  { }

  // ---------------------------------------------------------------- preparing to send

  /** Between beginning and sending: without a provider, a method or the permission to charge nothing is sent and
      the attempt has failed; if the digest cannot be recorded nothing is sent and nobody knows; otherwise the
      digest is on record before anything is sent. */
  lemma PrepareMeans(s: Shop, w: Id, route: Route, k: nat, a: nat)
    requires w in s.workers && s.workers[w].pc == Fresh(k, a) && a < |s.attempts|
    ensures var t := DoPrepare(s, w, route); var charging := s.attempts[a].operation.ChargeCall?;
            var free := !s.attempts[a].digest && s.attempts[a].result.None?;
            && w in t.workers && t.log == s.log && t.intents == s.intents && t.jobs == s.jobs
            && t.workers[w].pc
               == (if route.NoProvider? || (charging && route.NoMethod?) then Recording(k, a, Failed, NotSent)
                   else if !free then Recording(k, a, Unknown, NotSent)
                   else if charging && route.Disabled? then Recording(k, a, Failed, NotSent)
                   else Sending(k, a))
            && (t.workers[w].pc.Sending? ==> t.attempts == s.attempts[a := s.attempts[a].(digest := true)])
  { }

  /** Recovering someone else's attempt sends nothing and says Unknown, once the digest is on record. */
  lemma RecoverMeans(s: Shop, w: Id, k: nat, a: nat, needsDigest: bool)
    requires w in s.workers && s.workers[w].pc == Recovering(k, a, needsDigest) && a < |s.attempts|
    ensures var t := DoRecover(s, w); var free := !s.attempts[a].digest && s.attempts[a].result.None?;
            && w in t.workers && t.log == s.log && t.intents == s.intents && t.jobs == s.jobs
            && t.workers[w].pc == (if needsDigest && !free then Idle else Recording(k, a, Unknown, Recovered))
  { }

  /** The call itself: one event, of the attempt's kind, and the worker goes on with what the answer means. */
  lemma CallMeans(s: Shop, w: Id, k: nat, a: nat, answer: Answer)
    requires w in s.workers && s.workers[w].pc == Sending(k, a) && a < |s.attempts|
    ensures var t := DoCall(s, w, answer); var st := ResultOf(s.attempts[a].operation, answer);
            && t.log == s.log + [if s.attempts[a].operation.ChargeCall? then Charged(a) else Queried(a)]
            && t == s.(log := t.log, workers := t.workers)
            && t.workers == s.workers[w := s.workers[w].(pc := Recording(k, a, st, Answered))]
  {
    hide ResultOf;
  }

  // ---------------------------------------------------------------- leases

  /** A job is leased only if it was waiting and due, or its lease had gone stale; whatever the query found in that
      condition is leased, up to the limit, to this owner as of now. */
  lemma ClaimMeans(jobs: seq<Job>, picked: seq<nat>, now: Time, stale: Time, owner: Id, limit: nat, k: nat)
    requires k < |jobs|
    ensures var r := ClaimPaymentJobs(jobs, picked, now, stale, owner, limit);
            var free := (jobs[k].lease.Pending? && jobs[k].due <= now) || (jobs[k].lease.Leased?
                && jobs[k].lease.at <= stale);
            && (k in r.1 ==> free && r.0[k] == jobs[k].(lease := Leased(owner, now)))
            && (k !in r.1 ==> r.0[k] == jobs[k])
            && (free && k in picked && k !in r.1 ==> |r.1| == limit)
  {
    hide ClaimPaymentJobs;
  }

  /** Completing and putting back a job are for the holder of its lease alone. */
  lemma LeaseholderOnly(s: Shop, w: Id, k: nat, owner: Id, due: Time)
    requires w in s.workers && s.workers[w].pc == Closing(k)
    ensures var mine := k < |s.jobs| && s.jobs[k].lease.Leased? && s.jobs[k].lease.owner == s.workers[w].owner;
            var t := PaymentJobs.Step(s, CompleteJob(w));
            && t.jobs == (if mine then s.jobs[k := s.jobs[k].(lease := JobCompleted)] else s.jobs)
            && t.intents == s.intents && t.attempts == s.attempts && t.log == s.log
    ensures var held := k < |s.jobs| && s.jobs[k].lease.Leased? && s.jobs[k].lease.owner == owner;
            var t := PaymentJobs.Step(s, RetryJob(k, owner, due));
            t == if held then s.(jobs := s.jobs[k := s.jobs[k].(lease := Pending, due := due)]) else s
  { }
}
