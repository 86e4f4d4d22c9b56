/** Daily limits of automatic top-up over every run, with no assumption on the clock. */
module AccountTopUps {
  import opened Common
  import opened Account
  import opened AccountReversals

  predicate InDay(intent: Intent, day: Time) { intent.reason.AutoTopUp? && DayStart(intent.createdAt) == day }

  /** Automatic top-ups created in the billing day that starts at `day`. */
  function DayCount(intents: seq<Intent>, day: Time): nat {
    if |intents| == 0 then 0
    else DayCount(intents[..|intents| - 1], day) + if InDay(intents[|intents| - 1], day) then 1 else 0
  }

  /** The part of them that neither failed nor was canceled. */
  function DayAmount(intents: seq<Intent>, day: Time): int {
    if |intents| == 0 then 0
    else
      var last := intents[|intents| - 1];
      DayAmount(intents[..|intents| - 1], day) + if InDay(last, day) && !Lost(last) then last.amount else 0
  }

  ghost predicate PositiveAmounts(intents: seq<Intent>) { forall i :: 0 <= i < |intents| ==> intents[i].amount > 0 }

  /** The store's query counts from the day start on, so it sees at least the whole day. */
  lemma {:induction false} QueryCoversDay(intents: seq<Intent>, day: Time)
    requires PositiveAmounts(intents)
    ensures DayCount(intents, day) <= AutoCount(intents, day)
    ensures DayAmount(intents, day) <= AutoAmount(intents, day)
  {
    if |intents| > 0 {
      var last := intents[|intents| - 1];
      QueryCoversDay(intents[..|intents| - 1], day);
      DayStartsBefore(last.createdAt);
    }
  }

  lemma DayStartsBefore(t: Time)
    ensures DayStart(t) <= t < DayStart(t) + DAY
  {
  }

  /** Transitions never move an intent to another day and can only take its amount out. */
  lemma {:induction false} TransitionsShrink(a: seq<Intent>, b: seq<Intent>, day: Time)
    requires |a| == |b| && PositiveAmounts(a) && forall i :: 0 <= i < |a| ==> SameOrigin(a[i], b[i])
    ensures DayCount(b, day) == DayCount(a, day) && DayAmount(b, day) <= DayAmount(a, day)
  {
    if |a| > 0 {
      TransitionsShrink(a[..|a| - 1], b[..|b| - 1], day);
      assert SameOrigin(a[|a| - 1], b[|b| - 1]);
    }
  }

  predicate PolicyWithin(policy: Option<Policy>, attempts: int, amount: int) {
    policy.Some? ==> policy.value.attemptLimit == attempts && policy.value.amountLimit == amount
  }

  ghost predicate LimitLaw(f: Funds, attempts: int, amount: int) {
    && PositiveAmounts(f.intents) && PolicyWithin(f.policy, attempts, amount)
    && forall day :: DayCount(f.intents, day) <= attempts && DayAmount(f.intents, day) <= amount
  }

  lemma LimitsSurvive(f: Funds, g: Funds, attempts: int, amount: int)
    requires LimitLaw(f, attempts, amount) && Grows(f, g) && |g.intents| == |f.intents|
    requires PolicyWithin(g.policy, attempts, amount)
    ensures LimitLaw(g, attempts, amount)
  {
    forall i | 0 <= i < |g.intents| ensures g.intents[i].amount > 0 {
      assert SameOrigin(f.intents[i], g.intents[i]);
    }
    forall day ensures DayCount(g.intents, day) <= attempts && DayAmount(g.intents, day) <= amount {
      TransitionsShrink(f.intents, g.intents, day);
      assert DayCount(f.intents, day) <= attempts && DayAmount(f.intents, day) <= amount;
    }
  }

  /** Appending one intent adds it to its own day only. */
  lemma AppendIntent(intents: seq<Intent>, x: Intent, day: Time)
    ensures DayCount(intents + [x], day) == DayCount(intents, day) + if InDay(x, day) then 1 else 0
    ensures DayAmount(intents + [x], day) == DayAmount(intents, day) + if InDay(x, day) && !Lost(x) then x.amount else 0
  {
    assert (intents + [x])[..|intents|] == intents;
  }

  lemma AutoTopUpWithin(s: State, now: Time, via: Method, attempts: int, amount: int)
    requires LimitLaw(s.funds, attempts, amount)
    ensures RunAutoTopUp(s, now, via).Done? ==>
              LimitLaw(RunAutoTopUp(s, now, via).state.funds, attempts, amount)
  {
    var r := RunAutoTopUp(s, now, via);
    if r.Done? && r.state != s {
      var intents := s.funds.intents;
      var x := r.state.funds.intents[|intents|];
      QueryCoversDay(intents, DayStart(now));
      assert r.state.funds.intents == intents + [x];
      forall day ensures DayCount(intents + [x], day) <= attempts && DayAmount(intents + [x], day) <= amount {
        AppendIntent(intents, x, day);
        assert DayCount(intents, day) <= attempts && DayAmount(intents, day) <= amount;
      }
    }
  }

  lemma PostWithin(s: State, req: PostIn, attempts: int, amount: int)
    requires LimitLaw(s.funds, attempts, amount)
    ensures PostLedgerEntry(s, req).Done? ==> LimitLaw(PostLedgerEntry(s, req).state.funds, attempts, amount)
  {
    hide RunAutoTopUp;
    hide LimitLaw;
    var ins := InsertEntry(s.funds, req.direction, req.amount, req.reason, req.key, req.source);
    if ins.Inserted? {
      SameIntents(s.funds, ins.funds, attempts, amount);
      var posted := s.(funds := ins.funds);
      AutoTopUpWithin(posted, req.now, req.via, attempts, amount);
      RearmWithin(posted, attempts, amount);
    }
  }

  lemma SameIntents(f: Funds, g: Funds, attempts: int, amount: int)
    requires LimitLaw(f, attempts, amount) && g.intents == f.intents
    requires PolicyWithin(f.policy, attempts, amount) ==> PolicyWithin(g.policy, attempts, amount)
    ensures LimitLaw(g, attempts, amount)
  {
  }

  lemma RearmWithin(s: State, attempts: int, amount: int)
    requires LimitLaw(s.funds, attempts, amount)
    ensures LimitLaw(Rearm(s).funds, attempts, amount)
  {
    hide LimitLaw;
    hide Fenced;
    SameIntents(s.funds, Rearm(s).funds, attempts, amount);
  }

  lemma TopUpWithin(s: State, req: TopUpIn, attempts: int, amount: int)
    requires LimitLaw(s.funds, attempts, amount)
    ensures CreateTopUp(s, req).Done? ==> LimitLaw(CreateTopUp(s, req).state.funds, attempts, amount)
  {
    var r := CreateTopUp(s, req);
    if r.Done? && r.state != s {
      var intents := s.funds.intents;
      var x := r.state.funds.intents[|intents|];
      forall day ensures DayCount(intents + [x], day) <= attempts && DayAmount(intents + [x], day) <= amount {
        AppendIntent(intents, x, day);
        assert DayCount(intents, day) <= attempts && DayAmount(intents, day) <= amount;
      }
    }
  }

  /** Limits never change: a policy is only ever set with these two. */
  predicate FixedLimits(op: Op, attempts: int, amount: int) {
    op.OnMoney? && op.money.SetPolicy? ==>
      op.money.policy.attemptLimit == attempts && op.money.policy.amountLimit == amount
  }

  lemma MoneyWithin(s: State, op: MoneyOp, attempts: int, amount: int)
    requires LimitLaw(s.funds, attempts, amount) && FixedLimits(OnMoney(op), attempts, amount)
    ensures MoneyStep(s, op).Done? ==> LimitLaw(MoneyStep(s, op).state.funds, attempts, amount)
  {
    hide LimitLaw;
    hide PostLedgerEntry;
    hide CreateTopUp;
    hide TransitionIntent;
    hide Allocate;
    hide Grows;
    hide Fenced;
    if MoneyStep(s, op).Done? {
      var g := MoneyStep(s, op).state.funds;
      match op
      case Post(req) => PostWithin(s, req, attempts, amount);
      case TopUp(req) => TopUpWithin(s, req, attempts, amount);
      case Transition(i, to, ref) =>
        MoneyGrows(s, op);
        TransitionPolicy(s, i, to, ref, attempts, amount);
        LimitsHold(s.funds, attempts, amount);
        LimitsSurvive(s.funds, g, attempts, amount);
      case Charge(i) =>
        MoneyGrows(s, op);
        LimitsHold(s.funds, attempts, amount);
        LimitsSurvive(s.funds, g, attempts, amount);
      case Reference(i, _) =>
        MoneyGrows(s, op);
        LimitsHold(s.funds, attempts, amount);
        LimitsSurvive(s.funds, g, attempts, amount);
      case Reverse(req) =>
        AllocatePolicy(s.(claims := s.claims.(events := s.claims.events + [Reversal(req, None, None)])),
                       |s.claims.events|, None, attempts, amount);
        SameIntents(s.funds, g, attempts, amount);
      case Resolve(k, evidence, ok) =>
        AllocatePolicy(s, k, Some(evidence), attempts, amount);
        SameIntents(s.funds, g, attempts, amount);
      case _ => SameIntents(s.funds, g, attempts, amount);
    }
  }

  lemma LimitsHold(f: Funds, attempts: int, amount: int)
    requires LimitLaw(f, attempts, amount)
    ensures PolicyWithin(f.policy, attempts, amount)
  {
  }

  lemma TransitionPolicy(s: State, i: nat, to: IntentState, ref: string, attempts: int, amount: int)
    ensures TransitionIntent(s, i, to, ref).Done? ==>
              var g := TransitionIntent(s, i, to, ref).state.funds;
              && |g.intents| == |s.funds.intents|
              && (PolicyWithin(s.funds.policy, attempts, amount) ==> PolicyWithin(g.policy, attempts, amount))
  {
    hide HasKey;
  }

  lemma AllocatePolicy(s: State, k: nat, resolution: Option<Id>, attempts: int, amount: int)
    requires k < |s.claims.events|
    ensures Allocate(s, k, resolution).Done? ==>
              var g := Allocate(s, k, resolution).state.funds;
              && g.intents == s.funds.intents
              && (PolicyWithin(s.funds.policy, attempts, amount) ==> PolicyWithin(g.policy, attempts, amount))
  {
    hide ClassifyReversal;
    hide HasKey;
  }

  lemma StepWithin(s: State, op: Op, attempts: int, amount: int)
    requires LimitLaw(s.funds, attempts, amount) && FixedLimits(op, attempts, amount)
    ensures LimitLaw(Step(s, op).funds, attempts, amount)
  {
    hide LimitLaw;
    hide MoneyStep;
    match op
    case OnMoney(m) => MoneyWithin(s, m, attempts, amount);
    case OnHandoff(h) =>
      PolicyByHandoff(s, h, attempts, amount);
      SameIntents(s.funds, Step(s, op).funds, attempts, amount);
    case OnClosure(c) =>
      PolicyByClosure(s, c, attempts, amount);
      SameIntents(s.funds, Step(s, op).funds, attempts, amount);
    case Elsewhere(_) =>
  }

  lemma PolicyByHandoff(s: State, op: HandoffOp, attempts: int, amount: int)
    ensures HandoffStep(s, op).Done? && PolicyWithin(s.funds.policy, attempts, amount) ==>
              PolicyWithin(HandoffStep(s, op).state.funds.policy, attempts, amount)
  {
    hide RecordSettlement;
    hide ConfirmSnapshot;
    hide AuthorizeCommit;
    hide PrepareHandoff;
    hide DecideCommit;
    hide BeginAbort;
    hide CompleteAbort;
    hide Capture;
    hide FindOpen;
  }

  lemma PolicyByClosure(s: State, op: ClosureOp, attempts: int, amount: int)
    ensures ClosureStep(s, op).Done? && PolicyWithin(s.funds.policy, attempts, amount) ==>
              PolicyWithin(ClosureStep(s, op).state.funds.policy, attempts, amount)
  {
    hide ClosureReadiness;
    hide CaptureClosure;
    hide FindOpen;
    hide Fenced;
  }

  /** With fixed limits, in every reachable state every billing day has at most the allowed number of
      automatic top-ups, and those not lost sum to at most the allowed amount. */
  lemma {:induction false} RunStaysWithinLimits(s: State, ops: seq<Op>, attempts: nat, amount: nat)
    requires Init(s) && forall k :: 0 <= k < |ops| ==> FixedLimits(ops[k], attempts, amount)
    ensures forall day :: DayCount(Run(s, ops).funds.intents, day) <= attempts
                       && DayAmount(Run(s, ops).funds.intents, day) <= amount
  {
    RunWithin(s, ops, attempts, amount);
    hide Run;
  }

  lemma {:induction false} RunWithin(s: State, ops: seq<Op>, attempts: nat, amount: nat)
    requires Init(s) && forall k :: 0 <= k < |ops| ==> FixedLimits(ops[k], attempts, amount)
    ensures LimitLaw(Run(s, ops).funds, attempts, amount)
  {
    hide Step;
    if |ops| > 0 {
      RunWithin(s, ops[..|ops| - 1], attempts, amount);
      hide LimitLaw;
      StepWithin(Run(s, ops[..|ops| - 1]), ops[|ops| - 1], attempts, amount);
    }
  }

  // ---------------------------------------------------------------- when an automatic top-up is born

  /** A debit took the balance below the threshold, and the policy decided for a top-up. */
  predicate Triggered(f: Funds, g: Funds) { g.balance < f.balance && Decided(f, g) }

  /** What must have held for the policy to create an automatic top-up, and what it leaves. */
  predicate Decided(f: Funds, g: Funds) {
    && !HasOpen(f.intents) && f.policy.Some? && g.policy.Some?
    && ValidPolicy(f.policy.value) && f.policy.value.enabled && f.policy.value.armed
    && g.balance < f.policy.value.threshold
    && !g.policy.value.armed && g.policy.value.lastTriggered.Some?
    && (f.policy.value.lastTriggered.Some? ==>
          g.policy.value.lastTriggered.value
          >= f.policy.value.lastTriggered.value + f.policy.value.cooldown * 1_000_000)
  }

  /** At most one intent is born per step, and an automatic one only when triggered. */
  ghost predicate Birth(f: Funds, g: Funds) {
    && |f.intents| <= |g.intents| <= |f.intents| + 1
    && (|g.intents| > |f.intents| && g.intents[|f.intents|].reason.AutoTopUp? ==> Triggered(f, g))
  }

  lemma AutoTopUpBirth(s: State, now: Time, via: Method)
    ensures RunAutoTopUp(s, now, via).Done? ==>
              var g := RunAutoTopUp(s, now, via).state.funds; var f := s.funds;
              && |f.intents| <= |g.intents| <= |f.intents| + 1 && g.balance == f.balance
              && (|g.intents| > |f.intents| ==> Decided(f, g))
  {
    hide HasOpen;
    hide Fenced;
    hide AutoCount;
    hide AutoAmount;
  }

  lemma PostBirth(s: State, req: PostIn)
    ensures PostLedgerEntry(s, req).Done? ==> Birth(s.funds, PostLedgerEntry(s, req).state.funds)
  {
    hide RunAutoTopUp;
    hide HasOpen;
    hide HasKey;
    hide FindEntry;
    hide Fenced;
    var ins := InsertEntry(s.funds, req.direction, req.amount, req.reason, req.key, req.source);
    if ins.Inserted? {
      AutoTopUpBirth(s.(funds := ins.funds), req.now, req.via);
    }
  }

  lemma StepBirth(s: State, op: Op)
    ensures Birth(s.funds, Step(s, op).funds) && Grows(s.funds, Step(s, op).funds)
  {
    hide HandoffStep;
    hide ClosureStep;
    hide PostLedgerEntry;
    hide Allocate;
    hide Triggered;
    hide InsertEntry;
    hide Fenced;
    hide FindIntent;
    if op.OnMoney? {
      MoneyGrows(s, op.money);
      hide Grows;
      if op.money.Post? { PostBirth(s, op.money.post); }
      if op.money.Transition? { TransitionPolicy(s, op.money.intent, op.money.to, op.money.ref, 0, 0); }
    }
  }

  ghost predicate OneOpenAuto(intents: seq<Intent>) {
    forall i, j :: 0 <= i < j < |intents| && intents[i].reason.AutoTopUp? && intents[j].reason.AutoTopUp? ==>
      Terminal(intents[i].state) || Terminal(intents[j].state)
  }

  lemma OneOpenSurvives(f: Funds, g: Funds)
    requires OneOpenAuto(f.intents) && Birth(f, g) && Grows(f, g)
    ensures OneOpenAuto(g.intents)
  {
    hide ValidPolicy;
    forall i | 0 <= i < |f.intents| ensures SameOrigin(f.intents[i], g.intents[i]) { }
    assert !HasOpen(f.intents) ==> forall i :: 0 <= i < |f.intents| ==> Terminal(f.intents[i].state);
    hide HasOpen;
  }

  /** In every reachable state at most one automatic top-up is open. */
  lemma {:induction false} RunKeepsOneOpenAuto(s: State, ops: seq<Op>)
    requires Init(s)
    ensures OneOpenAuto(Run(s, ops).funds.intents)
  {
    hide Step;
    hide Birth;
    hide Grows;
    if |ops| > 0 {
      var mid := Run(s, ops[..|ops| - 1]);
      RunKeepsOneOpenAuto(s, ops[..|ops| - 1]);
      StepBirth(mid, ops[|ops| - 1]);
      OneOpenSurvives(mid.funds, Step(mid, ops[|ops| - 1]).funds);
    }
  }
}
