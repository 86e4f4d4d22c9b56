/** The automatic top-up policy over every run: lost top-ups are counted, the third in a row switches the policy
    off, and off it stays until it is set again. */
module AccountPolicy {
  import opened Common
  import opened Account
  import opened AccountReversals
  import opened AccountTopUps

  // ---------------------------------------------------------------- counting outcomes

  /** An automatic top-up of this policy generation. */
  predicate Mine(x: Intent, gen: int) { x.reason.AutoTopUp? && x.policyGeneration == gen }

  predicate Counted(x: Intent, gen: int, won: bool) { Mine(x, gen) && if won then x.state.Succeeded? else Lost(x) }

  /** How many of them succeeded, or failed or were canceled. */
  function Tally(intents: seq<Intent>, gen: int, won: bool): nat {
    if |intents| == 0 then 0
    else
      var n := |intents| - 1;
      Tally(intents[..n], gen, won) + if Counted(intents[n], gen, won) then 1 else 0
  }

  lemma {:induction false} TallyUpdate(intents: seq<Intent>, i: nat, x: Intent, gen: int, won: bool)
    requires i < |intents|
    ensures Tally(intents[i := x], gen, won) + (if Counted(intents[i], gen, won) then 1 else 0)
            == Tally(intents, gen, won) + if Counted(x, gen, won) then 1 else 0
  {
    var n := |intents| - 1;
    if i < n {
      TallyUpdate(intents[..n], i, x, gen, won);
      assert intents[i := x][..n] == intents[..n][i := x];
    } else {
      assert intents[i := x][..n] == intents[..n];
    }
  }

  lemma TallyAppend(intents: seq<Intent>, x: Intent, gen: int, won: bool)
    requires !Counted(x, gen, won)
    ensures Tally(intents + [x], gen, won) == Tally(intents, gen, won)
  {
    assert (intents + [x])[..|intents|] == intents;
  }

  // ---------------------------------------------------------------- what a step does to the policy

  /** A policy is off from the third loss in a row on. */
  predicate Latched(p: Policy) { 0 <= p.failures && (p.failures >= 3 ==> !p.enabled) }

  /** Steps other than setting it never switch a policy on, arm it only while it is on, create none, keep its
      generation or retire it, and count exactly the losses. */
  ghost predicate Effect(f: Funds, g: Funds) {
    if f.policy.None? then g.policy.None?
    else
      && g.policy.Some?
      && var p, q := f.policy.value, g.policy.value;
         && Switches(p, q) && (Latched(p) ==> Latched(q))
         && Losses(p, q, Tally(f.intents, p.generation, true), Tally(g.intents, p.generation, true),
                   Tally(f.intents, p.generation, false), Tally(g.intents, p.generation, false))
  }

  predicate Switches(p: Policy, q: Policy) {
    && (q.enabled ==> p.enabled) && (q.armed && !p.armed ==> q.enabled)
    && (q.generation == p.generation || (q.generation == p.generation + 1 && !q.enabled))
  }

  /** Tallies before and after, won and lost. */
  predicate Losses(p: Policy, q: Policy, won: int, won': int, lost: int, lost': int) {
    && won <= won' && lost <= lost'
    && (q.generation == p.generation && won' == won ==>
          q.failures == p.failures + lost' - lost && (lost' > lost ==> !q.armed && (q.failures >= 3 ==> !q.enabled)))
  }

  lemma SuccessEffect(f: Funds, i: nat, moved: Intent, g: Funds)
    requires i < |f.intents| && !Terminal(f.intents[i].state) && moved.state.Succeeded?
    requires g.intents == f.intents[i := moved] && g.policy == f.policy
    ensures Effect(f, AfterSuccess(g, moved))
  {
    if f.policy.Some? {
      var gen := f.policy.value.generation;
      TallyUpdate(f.intents, i, moved, gen, true);
      TallyUpdate(f.intents, i, moved, gen, false);
      hide Tally;
    }
  }

  lemma FailureEffect(f: Funds, i: nat, moved: Intent)
    requires i < |f.intents| && !Terminal(f.intents[i].state) && !moved.state.Succeeded?
    ensures Effect(f, AfterNonSuccess(f.(intents := f.intents[i := moved]), moved))
  {
    if f.policy.Some? {
      var gen := f.policy.value.generation;
      TallyUpdate(f.intents, i, moved, gen, true);
      TallyUpdate(f.intents, i, moved, gen, false);
      hide Tally;
    }
  }

  lemma TransitionEffect(s: State, i: nat, to: IntentState, ref: string)
    ensures TransitionIntent(s, i, to, ref).Done? ==> Effect(s.funds, TransitionIntent(s, i, to, ref).state.funds)
  {
    hide Effect;
    hide AfterSuccess;
    hide AfterNonSuccess;
    hide HasKey;
    EffectReflexive(s.funds);
    if i < |s.funds.intents| {
      var intent := s.funds.intents[i];
      var moved := intent.(state := to, providerRef := if intent.providerRef == "" then ref else intent.providerRef);
      var f := s.funds.(intents := s.funds.intents[i := moved]);
      if !Terminal(intent.state) {
        if to.Succeeded? {
          var ins := InsertEntry(f, Credit, intent.amount, PaymentTopUpCredit, IntentKey(i), "payment_worker");
          if ins.Inserted? { SuccessEffect(s.funds, i, moved, ins.funds); }
        } else {
          FailureEffect(s.funds, i, moved);
        }
      }
    }
  }

  lemma EffectReflexive(f: Funds)
    ensures Effect(f, f)
  {
    hide Tally;
  }

  lemma AutoTopUpEffect(s: State, now: Time, via: Method)
    ensures RunAutoTopUp(s, now, via).Done? ==> Effect(s.funds, RunAutoTopUp(s, now, via).state.funds)
  {
    hide HasOpen;
    hide Fenced;
    hide AutoCount;
    hide AutoAmount;
    hide EvaluateAutoTopUp;
    var r := RunAutoTopUp(s, now, via);
    if r.Done? && r.state != s {
      var intents := s.funds.intents;
      var x := r.state.funds.intents[|intents|];
      TallyAppend(intents, x, s.funds.policy.value.generation, true);
      TallyAppend(intents, x, s.funds.policy.value.generation, false);
      assert r.state.funds.intents == intents + [x];
      hide Tally;
    }
  }

  lemma PostEffect(s: State, req: PostIn)
    ensures PostLedgerEntry(s, req).Done? ==> Effect(s.funds, PostLedgerEntry(s, req).state.funds)
  {
    hide RunAutoTopUp;
    hide Tally;
    hide HasKey;
    hide FindEntry;
    hide Fenced;
    var ins := InsertEntry(s.funds, req.direction, req.amount, req.reason, req.key, req.source);
    if ins.Inserted? { AutoTopUpEffect(s.(funds := ins.funds), req.now, req.via); }
  }

  lemma BirthEffect(f: Funds, x: Intent)
    requires !Terminal(x.state)
    ensures Effect(f, f.(intents := f.intents + [x]))
  {
    if f.policy.Some? {
      TallyAppend(f.intents, x, f.policy.value.generation, true);
      TallyAppend(f.intents, x, f.policy.value.generation, false);
      hide Tally;
    }
  }

  /** Rewriting an open intent, or anything but the outcome of one. */
  lemma RewriteEffect(f: Funds, i: nat, x: Intent)
    requires i < |f.intents| && Mine(x, x.policyGeneration) == Mine(f.intents[i], x.policyGeneration)
    requires x.policyGeneration == f.intents[i].policyGeneration
    requires x.state == f.intents[i].state || (!Terminal(x.state) && !Terminal(f.intents[i].state))
    ensures Effect(f, f.(intents := f.intents[i := x]))
  {
    if f.policy.Some? {
      var gen := f.policy.value.generation;
      TallyUpdate(f.intents, i, x, gen, true);
      TallyUpdate(f.intents, i, x, gen, false);
      hide Tally;
    }
  }

  predicate SetsPolicy(op: Op) { op.OnMoney? && op.money.SetPolicy? }

  lemma MoneyEffect(s: State, op: MoneyOp)
    requires !op.SetPolicy?
    ensures MoneyStep(s, op).Done? ==> Effect(s.funds, MoneyStep(s, op).state.funds)
  {
    hide Effect;
    hide PostLedgerEntry;
    hide TransitionIntent;
    hide Allocate;
    hide Fenced;
    hide FindIntent;
    EffectReflexive(s.funds);
    match op
    case Post(req) => PostEffect(s, req);
    case Transition(i, to, ref) => TransitionEffect(s, i, to, ref);
    case TopUp(req) =>
      BirthEffect(s.funds, Intent(req.amount, ManualTopUp, req.provider, Some(req.key), 0,
                                  if req.hosted then Processing else Created, "", req.now));
    case Charge(i) =>
      if i < |s.funds.intents| && s.funds.intents[i].state.Created? {
        RewriteEffect(s.funds, i, s.funds.intents[i].(state := Processing));
      }
    case Reference(i, ref) =>
      if i < |s.funds.intents| { RewriteEffect(s.funds, i, s.funds.intents[i].(providerRef := ref)); }
    case DropPolicy => PolicyOnly(s.funds, MoneyStep(s, op));
    case Reverse(req) =>
      AllocateEffect(s.(claims := s.claims.(events := s.claims.events + [Reversal(req, None, None)])),
                     |s.claims.events|, None);
    case Resolve(k, evidence, ok) =>
      if k < |s.claims.events| { AllocateEffect(s, k, Some(evidence)); }
    case BindPast(_, _, _, _) =>
  }

  lemma PolicyOnly(f: Funds, r: Outcome)
    requires r.Done? ==>
               && r.state.funds.intents == f.intents
               && (f.policy.Some? <==> r.state.funds.policy.Some?)
               && (f.policy.Some? ==> Switches(f.policy.value, r.state.funds.policy.value)
                                      && r.state.funds.policy.value.failures == f.policy.value.failures)
    ensures r.Done? ==> Effect(f, r.state.funds)
  {
    hide Tally;
  }

  lemma AllocateEffect(s: State, k: nat, resolution: Option<Id>)
    requires k < |s.claims.events|
    ensures Allocate(s, k, resolution).Done? ==> Effect(s.funds, Allocate(s, k, resolution).state.funds)
  {
    hide ClassifyReversal;
    hide HasKey;
    hide Effect;
    PolicyOnly(s.funds, Allocate(s, k, resolution));
  }

  lemma HandoffEffect(s: State, op: HandoffOp)
    ensures HandoffStep(s, op).Done? ==> Effect(s.funds, HandoffStep(s, op).state.funds)
  {
    hide Effect;
    hide RecordSettlement;
    hide ConfirmSnapshot;
    hide AuthorizeCommit;
    hide PrepareHandoff;
    hide DecideCommit;
    hide BeginAbort;
    hide CompleteAbort;
    hide Capture;
    hide FindOpen;
    PolicyOnly(s.funds, HandoffStep(s, op));
  }

  lemma ClosureEffect(s: State, op: ClosureOp)
    ensures ClosureStep(s, op).Done? ==> Effect(s.funds, ClosureStep(s, op).state.funds)
  {
    hide Effect;
    hide ClosureReadiness;
    hide CaptureClosure;
    hide FindOpen;
    hide Fenced;
    PolicyOnly(s.funds, ClosureStep(s, op));
  }

  lemma StepEffect(s: State, op: Op)
    requires !SetsPolicy(op)
    ensures Effect(s.funds, Step(s, op).funds)
  {
    hide Effect;
    hide MoneyStep;
    hide HandoffStep;
    hide ClosureStep;
    EffectReflexive(s.funds);
    match op
    case OnMoney(m) => MoneyEffect(s, m);
    case OnHandoff(h) => HandoffEffect(s, h);
    case OnClosure(c) => ClosureEffect(s, c);
    case Elsewhere(_) =>
  }

  // ---------------------------------------------------------------- over runs

  predicate NoneSets(ops: seq<Op>) { forall k :: 0 <= k < |ops| ==> !SetsPolicy(ops[k]) }

  /** The effect of a whole run in which nobody sets the policy. */
  ghost predicate RunEffect(f: Funds, g: Funds) {
    f.policy.Some? ==>
      && g.policy.Some?
      && var p, q := f.policy.value, g.policy.value;
         && p.generation <= q.generation && (q.enabled ==> p.enabled)
         && (q.generation == p.generation ==>
               RunLosses(p, q, Tally(f.intents, p.generation, true), Tally(g.intents, p.generation, true),
                         Tally(f.intents, p.generation, false), Tally(g.intents, p.generation, false)))
  }

  predicate RunLosses(p: Policy, q: Policy, won: int, won': int, lost: int, lost': int) {
    && won <= won' && lost <= lost'
    && (won' == won ==>
          q.failures == p.failures + lost' - lost && (lost' > lost && q.failures >= 3 ==> !q.enabled && !q.armed))
  }

  lemma Compose(f: Funds, m: Funds, g: Funds)
    requires RunEffect(f, m) && Effect(m, g)
    ensures RunEffect(f, g)
  {
    hide Tally;
    hide Latched;
  }

  /** Through any run that does not set the policy: as long as its generation lasts and none of its top-ups
      succeeds, the failure count is exactly the number of those lost, and at three the policy is off. */
  lemma {:induction false} RunCountsLosses(s: State, ops: seq<Op>)
    requires NoneSets(ops)
    ensures RunEffect(s.funds, Run(s, ops).funds)
  {
    hide Step;
    hide Effect;
    if |ops| == 0 {
      hide Tally;
    } else {
      hide RunEffect;
      var mid := Run(s, ops[..|ops| - 1]);
      RunCountsLosses(s, ops[..|ops| - 1]);
      StepEffect(mid, ops[|ops| - 1]);
      Compose(s.funds, mid.funds, Step(mid, ops[|ops| - 1]).funds);
    }
  }

  predicate Off(f: Funds) { f.policy.Some? && !f.policy.value.enabled && !f.policy.value.armed }

  /** No automatic top-up was born since. */
  ghost predicate NoneBorn(f: Funds, g: Funds) {
    |f.intents| <= |g.intents| && forall i :: |f.intents| <= i < |g.intents| ==> !g.intents[i].reason.AutoTopUp?
  }

  /** No policy, or one that is off. */
  predicate Dormant(f: Funds) { f.policy.None? || Off(f) }

  lemma OffStep(f: Funds, m: Funds, g: Funds)
    requires Dormant(m) && NoneBorn(f, m) && Effect(m, g) && Birth(m, g) && Grows(m, g)
    ensures Dormant(g) && NoneBorn(f, g) && (Off(m) ==> Off(g))
  {
    hide Tally;
    hide Latched;
    hide Losses;
    forall i | |f.intents| <= i < |m.intents| ensures !g.intents[i].reason.AutoTopUp? {
      assert SameOrigin(m.intents[i], g.intents[i]);
    }
  }

  /** Where there is no policy, or one that is off, none comes on and nothing is created until one is set. */
  lemma {:induction false} RunStaysOff(s: State, ops: seq<Op>)
    requires Dormant(s.funds) && NoneSets(ops)
    ensures Dormant(Run(s, ops).funds) && NoneBorn(s.funds, Run(s, ops).funds)
    ensures Off(s.funds) ==> Off(Run(s, ops).funds)
  {
    hide Step;
    hide Effect;
    hide Birth;
    hide Grows;
    if |ops| > 0 {
      var mid := Run(s, ops[..|ops| - 1]);
      RunStaysOff(s, ops[..|ops| - 1]);
      StepEffect(mid, ops[|ops| - 1]);
      StepBirth(mid, ops[|ops| - 1]);
      OffStep(s.funds, mid.funds, Step(mid, ops[|ops| - 1]).funds);
    }
  }

  /** At least three more top-ups of the generation are lost in g than in f, and not one more has succeeded. */
  ghost predicate ThreeLostInARow(f: Funds, g: Funds) {
    && f.policy.Some? && g.policy.Some? && g.policy.value.generation == f.policy.value.generation
    && var gen := f.policy.value.generation;
       Tally(g.intents, gen, true) == Tally(f.intents, gen, true)
         && Tally(g.intents, gen, false) >= Tally(f.intents, gen, false) + 3
  }

  /** After three automatic top-ups of one generation failed or were canceled with no success between them, the
      policy is disabled and disarmed, and no further automatic top-up is born until somebody sets it again. */
  lemma ThirdLossSwitchesOff(s: State, ops: seq<Op>, more: seq<Op>)
    requires s.funds.policy.Some? ==> s.funds.policy.value.failures >= 0
    requires NoneSets(ops) && NoneSets(more) && ThreeLostInARow(s.funds, Run(s, ops).funds)
    ensures Off(Run(s, ops).funds)
    ensures Off(Run(Run(s, ops), more).funds) && NoneBorn(Run(s, ops).funds, Run(Run(s, ops), more).funds)
  {
    hide Step;
    RunCountsLosses(s, ops);
    hide Run;
    hide Tally;
    RunStaysOff(Run(s, ops), more);
  }

  /** In every reachable state the count is not negative, and from three on the policy is off. */
  lemma {:induction false} RunKeepsLatch(s: State, ops: seq<Op>)
    requires Init(s)
    ensures var p := Run(s, ops).funds.policy; p.Some? ==> Latched(p.value)
  {
    hide Step;
    if |ops| > 0 {
      var mid, op := Run(s, ops[..|ops| - 1]), ops[|ops| - 1];
      RunKeepsLatch(s, ops[..|ops| - 1]);
      if SetsPolicy(op) { SetKeepsLatch(mid, op); } else { StepEffect(mid, op); }
      hide Tally;
    }
  }

  lemma SetKeepsLatch(s: State, op: Op)
    requires SetsPolicy(op) && (s.funds.policy.Some? ==> Latched(s.funds.policy.value))
    ensures Step(s, op).funds.policy.Some? ==> Latched(Step(s, op).funds.policy.value)
  {
    hide HandoffStep;
    hide ClosureStep;
    hide Fenced;
  }
}
