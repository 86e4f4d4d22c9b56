/** The books of an account over every run: the balance is the signed sum of the ledger, and a payment
    intent has its one credit exactly when it succeeded. */
module AccountBooks {
  import opened Common
  import opened Account

  function Signed(e: Entry): int { if e.direction.Credit? then e.amount else -e.amount }

  function SignedSum(ledger: seq<Entry>): int {
    if |ledger| == 0 then 0 else SignedSum(ledger[..|ledger| - 1]) + Signed(ledger[|ledger| - 1])
  }

  /** Entry i records the balance after it, that balance fits, and its key is new. */
  predicate EntryOk(ledger: seq<Entry>, i: nat)
    requires i < |ledger|
  {
    && ledger[i].amount > 0
    && ledger[i].balanceAfter == SignedSum(ledger[..i + 1])
    && IsInt64(ledger[i].balanceAfter)
    && !HasKey(ledger[..i], ledger[i].key)
  }

  ghost predicate BooksLaw(f: Funds) {
    f.balance == SignedSum(f.ledger) && IsInt64(f.balance) && forall i: nat :: i < |f.ledger| ==> EntryOk(f.ledger, i)
  }

  lemma InsertKeepsBooks(f: Funds, direction: Direction, amount: int, reason: LedgerReason, key: Key, source: string)
    requires BooksLaw(f)
    ensures var r := InsertEntry(f, direction, amount, reason, key, source);
            r.Inserted? ==> BooksLaw(r.funds)
  {
    var r := InsertEntry(f, direction, amount, reason, key, source);
    if r.Inserted? {
      var l, n := r.funds.ledger, |f.ledger|;
      assert l[..n] == f.ledger && l[..n + 1] == l;
      forall i: nat | i < |l| ensures EntryOk(l, i) {
        if i < n {
          assert EntryOk(f.ledger, i);
          assert l[..i + 1] == f.ledger[..i + 1] && l[..i] == f.ledger[..i];
        }
      }
    }
  }

  lemma PostKeepsBooks(s: State, req: PostIn)
    requires BooksLaw(s.funds)
    ensures PostLedgerEntry(s, req).Done? ==> BooksLaw(PostLedgerEntry(s, req).state.funds)
  {
    hide RunAutoTopUp;
    hide InsertEntry;
    InsertKeepsBooks(s.funds, req.direction, req.amount, req.reason, req.key, req.source);
  }

  lemma TransitionKeepsBooks(s: State, i: nat, to: IntentState, ref: string)
    requires BooksLaw(s.funds)
    ensures TransitionIntent(s, i, to, ref).Done? ==> BooksLaw(TransitionIntent(s, i, to, ref).state.funds)
  {
    hide InsertEntry;
    if i < |s.funds.intents| {
      var intent := s.funds.intents[i];
      var moved := intent.(state := to, providerRef := if intent.providerRef == "" then ref else intent.providerRef);
      var f := s.funds.(intents := s.funds.intents[i := moved]);
      InsertKeepsBooks(f, Credit, intent.amount, PaymentTopUpCredit, IntentKey(i), "payment_worker");
    }
  }

  lemma AllocateKeepsBooks(s: State, k: nat, resolution: Option<Id>)
    requires k < |s.claims.events| && BooksLaw(s.funds)
    ensures Allocate(s, k, resolution).Done? ==> BooksLaw(Allocate(s, k, resolution).state.funds)
  {
    hide ClassifyReversal;
    hide InsertEntry;
    var req := s.claims.events[k].request;
    InsertKeepsBooks(s.funds, Debit, req.amount, req.reason, ReversalKey(req.provider, req.reference),
                     "provider_reconciliation");
  }

  lemma MoneyKeepsBooks(s: State, op: MoneyOp)
    requires BooksLaw(s.funds)
    ensures MoneyStep(s, op).Done? ==> BooksLaw(MoneyStep(s, op).state.funds)
  {
    hide PostLedgerEntry;
    hide TransitionIntent;
    hide CreateTopUp;
    hide BeginCharge;
    hide NoteReference;
    hide PutPolicy;
    hide DisablePolicy;
    hide BindHistorical;
    hide Allocate;
    match op
    case Post(req) => PostKeepsBooks(s, req);
    case Transition(i, to, ref) => TransitionKeepsBooks(s, i, to, ref);
    case Reverse(req) =>
      var s' := s.(claims := s.claims.(events := s.claims.events + [Reversal(req, None, None)]));
      AllocateKeepsBooks(s', |s.claims.events|, None);
    case Resolve(k, evidence, ok) =>
      if k < |s.claims.events| { AllocateKeepsBooks(s, k, Some(evidence)); }
    case _ =>
  }

  lemma StepKeepsBooks(s: State, op: Op)
    requires BooksLaw(s.funds)
    ensures BooksLaw(Step(s, op).funds)
  {
    hide MoneyStep;
    hide HandoffStep;
    hide ClosureStep;
    match op
    case OnMoney(m) => MoneyKeepsBooks(s, m);
    case _ =>
  }

  /** In every reachable state the balance is the signed sum of the ledger and every entry's
      balance_after is the matching prefix sum, within int64. */
  lemma {:induction false} RunKeepsBooks(s: State, ops: seq<Op>)
    requires Init(s)
    ensures BooksLaw(Run(s, ops).funds)
  {
    hide Step;
    if |ops| > 0 {
      RunKeepsBooks(s, ops[..|ops| - 1]);
      StepKeepsBooks(Run(s, ops[..|ops| - 1]), ops[|ops| - 1]);
    }
  }

  lemma OneEntryPerKey(f: Funds)
    requires BooksLaw(f)
    ensures forall d, e :: 0 <= d < |f.ledger| && 0 <= e < |f.ledger| && f.ledger[d].key == f.ledger[e].key ==> d == e
  {
    forall d, e | 0 <= d < e < |f.ledger| ensures f.ledger[d].key != f.ledger[e].key {
      assert EntryOk(f.ledger, e);
      assert f.ledger[..e][d] == f.ledger[d];
    }
  }

  // ---------------------------------------------------------------- one credit per succeeded intent

  /** The entry is the credit transitionIntentTx writes for an existing intent. */
  predicate CreditOf(e: Entry, intents: seq<Intent>) {
    e.key.IntentKey? ==>
      && e.key.intent < |intents| && e.amount == intents[e.key.intent].amount
      && e.direction.Credit? && e.reason.PaymentTopUpCredit? && e.source == "payment_worker"
  }

  ghost predicate CreditLaw(f: Funds) {
    && (forall i: nat :: i < |f.intents| ==> (f.intents[i].state.Succeeded? <==> HasKey(f.ledger, IntentKey(i))))
    && (forall e :: e in f.ledger ==> CreditOf(e, f.intents))
  }

  /** Under both laws a succeeded intent has exactly one credit, of its own amount. */
  lemma ExactlyOneCredit(f: Funds, i: nat)
    requires BooksLaw(f) && CreditLaw(f) && i < |f.intents|
    ensures f.intents[i].state.Succeeded? <==> exists j: nat ::
              j < |f.ledger| && f.ledger[j].key == IntentKey(i) && f.ledger[j].direction.Credit?
              && f.ledger[j].amount == f.intents[i].amount
    ensures forall j: nat, k: nat :: j < k < |f.ledger| ==> f.ledger[j].key != f.ledger[k].key
  {
    if HasKey(f.ledger, IntentKey(i)) {
      var j :| 0 <= j < |f.ledger| && f.ledger[j].key == IntentKey(i);
      assert f.ledger[j] in f.ledger;
    }
    forall j: nat, k: nat | j < k < |f.ledger| ensures f.ledger[j].key != f.ledger[k].key {
      assert EntryOk(f.ledger, k);
      assert f.ledger[..k][j] == f.ledger[j];
    }
  }

  /** Appending an entry under another kind of key. */
  lemma ForeignEntryKeepsCredits(f: Funds, g: Funds, e: Entry)
    requires CreditLaw(f) && g.ledger == f.ledger + [e] && g.intents == f.intents && !e.key.IntentKey?
    ensures CreditLaw(g)
  {
    HasKeyAppend(f.ledger, e);
  }

  lemma HasKeyAppend(ledger: seq<Entry>, e: Entry)
    ensures forall key :: HasKey(ledger + [e], key) <==> HasKey(ledger, key) || e.key == key
  {
    forall key ensures HasKey(ledger + [e], key) <==> HasKey(ledger, key) || e.key == key {
      if HasKey(ledger, key) {
        var i :| 0 <= i < |ledger| && ledger[i].key == key;
        assert (ledger + [e])[i].key == key;
      }
      if e.key == key { assert (ledger + [e])[|ledger|].key == key; }
    }
  }

  /** A fresh open intent has no credit yet. */
  lemma NewIntentKeepsCredits(f: Funds, intent: Intent)
    requires CreditLaw(f) && !intent.state.Succeeded?
    ensures CreditLaw(f.(intents := f.intents + [intent]))
  {
    var n := |f.intents|;
    forall j | 0 <= j < |f.ledger| ensures f.ledger[j].key != IntentKey(n) {
      assert f.ledger[j] in f.ledger;
    }
    forall e | e in f.ledger ensures CreditOf(e, f.intents + [intent]) {
      assert CreditOf(e, f.intents);
    }
  }

  lemma AutoTopUpKeepsCredits(s: State, now: Time, via: Method)
    requires CreditLaw(s.funds)
    ensures RunAutoTopUp(s, now, via).Done? ==> CreditLaw(RunAutoTopUp(s, now, via).state.funds)
  {
    if s.funds.policy.Some? {
      var p := s.funds.policy.value;
      NewIntentKeepsCredits(s.funds, Intent(p.topUp, AutoTopUp, via.provider, None, p.generation, Created, "", now));
    }
  }

  /** Posting under any key of the caller's choosing keeps the law exactly when that key is not in the
      scope the store reserves for payment intents. A caller can check this before the call. */
  lemma PostKeepsCreditsIff(s: State, req: PostIn)
    requires CreditLaw(s.funds) && PostLedgerEntry(s, req).Done? && !HasKey(s.funds.ledger, req.key)
    ensures CreditLaw(PostLedgerEntry(s, req).state.funds) <==> !req.key.IntentKey?
  {
    hide RunAutoTopUp;
    var f := InsertEntry(s.funds, req.direction, req.amount, req.reason, req.key, req.source).funds;
    var e := f.ledger[|s.funds.ledger|];
    HasKeyAppend(s.funds.ledger, e);
    if !req.key.IntentKey? {
      ForeignEntryKeepsCredits(s.funds, f, e);
      AutoTopUpKeepsCredits(s.(funds := f), req.now, req.via);
    } else {
      AutoTopUpAppends(s.(funds := f), req.now, req.via);
      var t := PostLedgerEntry(s, req).state.funds;
      assert t.ledger == f.ledger && e in t.ledger;
      assert f.ledger[|s.funds.ledger|].key == req.key;
      assert HasKey(t.ledger, req.key);
    }
  }

  lemma AutoTopUpAppends(s: State, now: Time, via: Method)
    ensures var r := RunAutoTopUp(s, now, via);
            r.Done? ==>
              && s.funds.intents <= r.state.funds.intents
              && forall i :: |s.funds.intents| <= i < |r.state.funds.intents| ==>
                  r.state.funds.intents[i].state.Created?
  {
  }

  /** Two calls on a fresh account after which an intent that never succeeded has a credit. */
  lemma ForgedCredit(s: State)
    requires Init(s) && s.funds.state.Active?
    ensures var topUp := TopUpIn(true, true, 100, Evidence.TWD, "paypal", "k", false, false, 0);
            var post := PostIn(true, Credit, 100, Evidence.TWD, ManualAdjustmentCredit, IntentKey(0), "console", 1,
                               Method("", false, false));
            var s1 := CreateTopUp(s, topUp);
            && s1.Done? && PostLedgerEntry(s1.state, post).Done?
            && !CreditLaw(PostLedgerEntry(s1.state, post).state.funds)
  {
    var topUp := TopUpIn(true, true, 100, Evidence.TWD, "paypal", "k", false, false, 0);
    var post := PostIn(true, Credit, 100, Evidence.TWD, ManualAdjustmentCredit, IntentKey(0), "console", 1,
                       Method("", false, false));
    var s1 := CreateTopUp(s, topUp).state;
    var t := PostLedgerEntry(s1, post).state.funds;
    assert t.ledger[0].key == IntentKey(0);
    assert HasKey(t.ledger, IntentKey(0));
  }

  lemma TransitionKeepsCredits(s: State, i: nat, to: IntentState, ref: string)
    requires CreditLaw(s.funds)
    ensures TransitionIntent(s, i, to, ref).Done? ==> CreditLaw(TransitionIntent(s, i, to, ref).state.funds)
  {
    var r := TransitionIntent(s, i, to, ref);
    if r.Done? && s.funds.intents[i].state != to {
      var f, g := s.funds, r.state.funds;
      assert |g.intents| == |f.intents|;
      assert forall j :: 0 <= j < |f.intents| ==> g.intents[j].amount == f.intents[j].amount;
      assert forall j :: 0 <= j < |f.intents| && j != i ==> g.intents[j] == f.intents[j];
      assert g.intents[i].state == to && !f.intents[i].state.Succeeded?;
      if to.Succeeded? {
        var e := g.ledger[|f.ledger|];
        assert g.ledger == f.ledger + [e];
        HasKeyAppend(f.ledger, e);
      }
      forall e | e in g.ledger ensures CreditOf(e, g.intents) {
        if e in f.ledger { assert CreditOf(e, f.intents); }
      }
    }
  }

  lemma AllocateKeepsCredits(s: State, k: nat, resolution: Option<Id>)
    requires k < |s.claims.events| && CreditLaw(s.funds)
    ensures Allocate(s, k, resolution).Done? ==> CreditLaw(Allocate(s, k, resolution).state.funds)
  {
    hide ClassifyReversal;
    var r := Allocate(s, k, resolution);
    if r.Done? && r.state.funds.ledger != s.funds.ledger {
      ForeignEntryKeepsCredits(s.funds, r.state.funds, r.state.funds.ledger[|s.funds.ledger|]);
    }
  }

  /** No caller posts in the scope reserved for intents. */
  predicate Reserved(op: Op) {
    op.OnMoney? && op.money.Post? ==> !op.money.post.key.IntentKey?
  }

  lemma MoneyKeepsCredits(s: State, op: MoneyOp)
    requires CreditLaw(s.funds) && Reserved(OnMoney(op))
    ensures MoneyStep(s, op).Done? ==> CreditLaw(MoneyStep(s, op).state.funds)
  {
    hide PostLedgerEntry;
    hide TransitionIntent;
    hide PutPolicy;
    hide DisablePolicy;
    hide BindHistorical;
    hide Allocate;
    match op
    case Post(req) => PostKeepsCredits(s, req);
    case Transition(i, to, ref) => TransitionKeepsCredits(s, i, to, ref);
    case TopUp(req) =>
      NewIntentKeepsCredits(s.funds, Intent(req.amount, ManualTopUp, req.provider, Some(req.key), 0,
                                            if req.hosted then Processing else Created, "", req.now));
    case Charge(i) => ChargeKeepsCredits(s, i);
    case Reference(i, ref) => ReferenceKeepsCredits(s, i, ref);
    case Reverse(req) =>
      var s' := s.(claims := s.claims.(events := s.claims.events + [Reversal(req, None, None)]));
      AllocateKeepsCredits(s', |s.claims.events|, None);
    case Resolve(k, evidence, ok) =>
      if k < |s.claims.events| { AllocateKeepsCredits(s, k, Some(evidence)); }
    case _ =>
  }

  lemma PostKeepsCredits(s: State, req: PostIn)
    requires CreditLaw(s.funds) && !req.key.IntentKey?
    ensures PostLedgerEntry(s, req).Done? ==> CreditLaw(PostLedgerEntry(s, req).state.funds)
  {
    if PostLedgerEntry(s, req).Done? {
      if HasKey(s.funds.ledger, req.key) {
        hide InsertEntry;
      } else {
        hide PostLedgerEntry;
        PostKeepsCreditsIff(s, req);
      }
    }
  }

  lemma ReferenceKeepsCredits(s: State, i: nat, ref: string)
    requires CreditLaw(s.funds)
    ensures NoteReference(s, i, ref).Done? ==> CreditLaw(NoteReference(s, i, ref).state.funds)
  {
    var r := NoteReference(s, i, ref);
    if r.Done? {
      forall e | e in s.funds.ledger ensures CreditOf(e, r.state.funds.intents) {
        assert CreditOf(e, s.funds.intents);
      }
    }
  }

  lemma ChargeKeepsCredits(s: State, i: nat)
    requires CreditLaw(s.funds)
    ensures BeginCharge(s, i).Done? ==> CreditLaw(BeginCharge(s, i).state.funds)
  {
    var r := BeginCharge(s, i);
    if r.Done? {
      forall e | e in s.funds.ledger ensures CreditOf(e, r.state.funds.intents) {
        assert CreditOf(e, s.funds.intents);
      }
    }
  }

  lemma StepKeepsCredits(s: State, op: Op)
    requires CreditLaw(s.funds) && Reserved(op)
    ensures CreditLaw(Step(s, op).funds)
  {
    hide MoneyStep;
    hide HandoffStep;
    hide ClosureStep;
    match op
    case OnMoney(m) => MoneyKeepsCredits(s, m);
    case _ =>
  }

  /** Along every run whose posts stay out of the reserved scope, an intent has its credit iff it succeeded. */
  lemma {:induction false} RunKeepsCredits(s: State, ops: seq<Op>)
    requires Init(s) && forall k :: 0 <= k < |ops| ==> Reserved(ops[k])
    ensures CreditLaw(Run(s, ops).funds)
  {
    hide Step;
    if |ops| > 0 {
      RunKeepsCredits(s, ops[..|ops| - 1]);
      StepKeepsCredits(Run(s, ops[..|ops| - 1]), ops[|ops| - 1]);
    }
  }

  /** Entry j is the credit of intent i, of its own amount. */
  predicate IsCreditOf(f: Funds, j: nat, i: nat) {
    && j < |f.ledger| && i < |f.intents| && f.ledger[j].key == IntentKey(i) && f.ledger[j].direction.Credit?
    && f.ledger[j].amount == f.intents[i].amount
  }

  /** Along every such run, intent i succeeded if and only if there is an entry that is its credit, and then that
      entry is the only one under its key. */
  lemma RunCreditsOnce(s: State, ops: seq<Op>, i: nat)
    requires Init(s) && (forall k :: 0 <= k < |ops| ==> Reserved(ops[k])) && i < |Run(s, ops).funds.intents|
    ensures var f := Run(s, ops).funds;
            && (f.intents[i].state.Succeeded? <==> exists j: nat :: IsCreditOf(f, j, i))
            && (forall j: nat, k: nat :: IsCreditOf(f, j, i) && k < |f.ledger| && f.ledger[k].key == IntentKey(i) ==>
                  k == j)
  {
    hide Step;
    RunKeepsBooks(s, ops);
    RunKeepsCredits(s, ops);
    hide Run;
    var f := Run(s, ops).funds;
    ExactlyOneCredit(f, i);
    hide BooksLaw;
    hide CreditLaw;
    if f.intents[i].state.Succeeded? {
      var j: nat :| j < |f.ledger| && f.ledger[j].key == IntentKey(i) && f.ledger[j].direction.Credit?
                    && f.ledger[j].amount == f.intents[i].amount;
      assert IsCreditOf(f, j, i);
    }
  }
}
