/** Closing a billing period: prepare the invoice, post its debit, record its settlement, each its own
    transaction, by any number of concurrent attempts that may crash between any two of them, while every
    other account operation goes on. */
module PeriodClose {
  import opened Common
  import opened Account
  import Evidence
  import AccountBooks
  import AccountReversals

  datatype InvoiceState = Issued | Settled
  datatype Invoice = Invoice(id: string, period: Id, total: int, state: InvoiceState, link: Option<nat>)

  datatype PeriodState = PeriodClosing | PeriodIncomplete | PeriodClosed

  /** A ClosePeriod call between two store calls, with the invoice row as it last read it. */
  datatype Pc =
    | Idle
    | Drafted(k: nat, seen: Invoice)
    | Debited(k: nat, seen: Invoice, ledgerId: Option<nat>)

  datatype World = World(account: State, periods: map<Id, PeriodState>, invoices: seq<Invoice>, closers: map<Id, Pc>)

  function FindInvoice(invoices: seq<Invoice>, period: Id): (r: Option<nat>)
    ensures r.Some? ==> r.value < |invoices| && invoices[r.value].period == period
    ensures r.None? <==> !Has(invoices, period)
  {
    if |invoices| == 0 then None
    else if invoices[|invoices| - 1].period == period then Some(|invoices| - 1)
    else FindInvoice(invoices[..|invoices| - 1], period)
  }

  predicate TakenId(invoices: seq<Invoice>, id: string) {
    exists k :: 0 <= k < |invoices| && invoices[k].id == id
  }

  /** What rating the period gives: an invoice total, a refusal that keeps an incomplete period, or a
      failure that rolls everything back. */
  datatype Rating = Rated(total: int) | Unratable | RolledBack

  /** PrepareInvoice, atomic under the account lock: the existing invoice, or a new one that closes the period. */
  function PrepareInvoice(w: World, period: Id, rating: Rating, newId: string): (r: (World, Option<nat>))
    ensures r.1.Some? ==> r.1.value < |r.0.invoices|
  {
    var prior := FindInvoice(w.invoices, period);
    var touched := if period in w.periods && w.periods[period].PeriodClosed? then PeriodClosed else PeriodClosing;
    if prior.Some? then (w.(periods := w.periods[period := touched]), prior)
    else if rating.RolledBack? then (w, None)
    else if touched.PeriodClosed? then (w, None)
    else if rating.Unratable? then (w.(periods := w.periods[period := PeriodIncomplete]), None)
    else if rating.total < 0 || rating.total > MAX_INT64 || TakenId(w.invoices, newId) then (w, None)
    else
      (w.(periods := w.periods[period := PeriodClosed],
          invoices := w.invoices + [Invoice(newId, period, rating.total, Issued, None)]), Some(|w.invoices|))
  }

  const SCOPE: string := "billing_invoice"

  function KeyOf(inv: Invoice): Key { Named(SCOPE, inv.id) }

  function DebitOf(inv: Invoice, now: Time, via: Method): PostIn {
    PostIn(true, Debit, inv.total, Evidence.TWD, InvoiceDebit, KeyOf(inv), "invoice", now, via)
  }

  /** RecordInvoiceSettlement: the first ledger id sticks, and the invoice is settled. */
  function RecordInvoiceSettlement(w: World, k: nat, ledgerId: Option<nat>): World
    requires k < |w.invoices|
  {
    var inv := w.invoices[k];
    w.(invoices := w.invoices[k := inv.(state := Settled, link := if inv.link.Some? then inv.link else ledgerId)])
  }

  datatype Op =
    | OnAccount(op: Account.Op)
    | Prepare(c: Id, period: Id, rating: Rating, newId: string)
    | PostDebit(c: Id, now: Time, via: Method)
    | Record(c: Id)
    | Crash(c: Id)

  function DoPrepare(w: World, c: Id, period: Id, rating: Rating, newId: string): World {
    var (t, k) := PrepareInvoice(w, period, rating, newId);
    t.(closers := t.closers[c := if k.None? then Idle else Drafted(k.value, t.invoices[k.value])])
  }

  function DoPost(w: World, c: Id, now: Time, via: Method): World {
    if c !in w.closers || !w.closers[c].Drafted? then w
    else
      var Drafted(k, seen) := w.closers[c];
      if seen.total <= 0 || seen.link.Some? then w.(closers := w.closers[c := Debited(k, seen, seen.link)])
      else
        var r := PostLedgerEntry(w.account, DebitOf(seen, now, via));
        if r.Fail? then w.(closers := w.closers[c := Idle])
        else
          var ledgerId := FindEntry(r.state.funds.ledger, KeyOf(seen));
          w.(account := r.state, closers := w.closers[c := Debited(k, seen, ledgerId)])
  }

  function DoRecord(w: World, c: Id): World {
    if c !in w.closers || !w.closers[c].Debited? || w.closers[c].k >= |w.invoices| then w
    else
      var Debited(k, seen, ledgerId) := w.closers[c];
      var due := !seen.state.Settled? || (seen.link.None? && ledgerId.Some?);
      var t := if due then RecordInvoiceSettlement(w, k, ledgerId) else w;
      t.(closers := t.closers[c := Idle])
  }

  function Step(w: World, op: Op): World {
    match op
    case OnAccount(a) => w.(account := Account.Step(w.account, a))
    case Prepare(c, period, rating, newId) => DoPrepare(w, c, period, rating, newId)
    case PostDebit(c, now, via) => DoPost(w, c, now, via)
    case Record(c) => DoRecord(w, c)
    case Crash(c) => w.(closers := w.closers - {c})
  }

  function Run(s: State, ops: seq<Op>): World {
    if |ops| == 0 then World(s, map[], [], map[]) else Step(Run(s, ops[..|ops| - 1]), ops[|ops| - 1])
  }

  lemma RunNext(s: State, ops: seq<Op>, op: Op)
    ensures Run(s, ops + [op]) == Step(Run(s, ops), op)
  {
    assert (ops + [op])[..|ops|] == ops;
    hide Step;
  }

  // ---------------------------------------------------------------- the laws

  /** Entry e is the debit of this invoice: right direction, amount, reason and key. */
  predicate IsDebitOf(ledger: seq<Entry>, e: nat, inv: Invoice) {
    && e < |ledger| && ledger[e].direction.Debit? && ledger[e].amount == inv.total
    && ledger[e].reason.InvoiceDebit? && ledger[e].key == KeyOf(inv)
  }

  predicate Apart(a: Invoice, b: Invoice) { a.period != b.period && a.id != b.id }

  /** One invoice per period, one id per invoice. */
  ghost predicate OnePerPeriod(invoices: seq<Invoice>) {
    forall j, k :: 0 <= j < k < |invoices| ==> Apart(invoices[j], invoices[k])
  }

  predicate Has(invoices: seq<Invoice>, period: Id) { exists k :: 0 <= k < |invoices| && invoices[k].period == period }

  /** Exactly the invoiced periods are closed. */
  ghost predicate ClosedMeansInvoiced(periods: map<Id, PeriodState>, invoices: seq<Invoice>) {
    forall p :: Has(invoices, p) <==> p in periods && periods[p].PeriodClosed?
  }

  ghost predicate InvoiceLaw(w: World) {
    OnePerPeriod(w.invoices) && ClosedMeansInvoiced(w.periods, w.invoices)
  }

  predicate LinkOk(ledger: seq<Entry>, inv: Invoice) {
    && (inv.link.Some? ==> IsDebitOf(ledger, inv.link.value, inv))
    && (inv.state.Settled? && inv.total > 0 ==> inv.link.Some?)
  }

  /** A settled invoice of a positive total points at its debit. */
  ghost predicate SettledLaw(w: World) {
    forall k :: 0 <= k < |w.invoices| ==> LinkOk(w.account.funds.ledger, w.invoices[k])
  }

  /** What an attempt read is still true, up to settlement. */
  predicate SeenOk(w: World, k: nat, seen: Invoice) {
    && k < |w.invoices| && seen == w.invoices[k].(state := seen.state, link := seen.link)
    && (seen.link.Some? ==> seen.link == w.invoices[k].link)
    && (seen.state.Settled? && seen.total > 0 ==> seen.link.Some?)
  }

  predicate PcOk(w: World, pc: Pc) {
    match pc
    case Idle => true
    case Drafted(k, seen) => SeenOk(w, k, seen)
    case Debited(k, seen, ledgerId) =>
      && SeenOk(w, k, seen)
      && (seen.total > 0 ==> ledgerId.Some?)
      && (ledgerId.Some? ==> IsDebitOf(w.account.funds.ledger, ledgerId.value, seen))
  }

  ghost predicate CloserLaw(w: World) {
    forall c :: c in w.closers ==> PcOk(w, w.closers[c])
  }

  ghost predicate CloseLaw(w: World) {
    AccountBooks.BooksLaw(w.account.funds) && InvoiceLaw(w) && SettledLaw(w) && CloserLaw(w)
  }

  // ---------------------------------------------------------------- preservation

  /** Only the ledger grew. */
  lemma LedgerGrows(w: World, t: World)
    requires t == w.(account := t.account) && w.account.funds.ledger <= t.account.funds.ledger
    ensures InvoiceLaw(w) ==> InvoiceLaw(t)
    ensures SettledLaw(w) ==> SettledLaw(t)
    ensures CloserLaw(w) ==> CloserLaw(t)
  {
    var l, m := w.account.funds.ledger, t.account.funds.ledger;
    assert forall e: nat, inv :: IsDebitOf(l, e, inv) ==> IsDebitOf(m, e, inv);
    hide IsDebitOf;
    assert forall k :: 0 <= k < |w.invoices| && LinkOk(l, w.invoices[k]) ==> LinkOk(m, w.invoices[k]);
    assert forall pc :: PcOk(w, pc) ==> PcOk(t, pc);
  }

  lemma AccountStepGrows(s: State, op: Account.Op)
    ensures s.funds.ledger <= Account.Step(s, op).funds.ledger
  {
    hide MoneyStep;
    hide HandoffStep;
    hide ClosureStep;
    if op.OnMoney? { AccountReversals.MoneyGrows(s, op.money); }
  }

  lemma AccountStepKeeps(w: World, a: Account.Op)
    requires CloseLaw(w)
    ensures CloseLaw(Step(w, OnAccount(a)))
  {
    hide Account.Step;
    hide AccountBooks.BooksLaw;
    hide InvoiceLaw;
    hide SettledLaw;
    hide CloserLaw;
    AccountStepGrows(w.account, a);
    AccountBooks.StepKeepsBooks(w.account, a);
    LedgerGrows(w, Step(w, OnAccount(a)));
  }

  lemma HasAppend(invoices: seq<Invoice>, inv: Invoice, period: Id)
    ensures Has(invoices + [inv], period) <==> Has(invoices, period) || inv.period == period
  {
    var t := invoices + [inv];
    assert t[|invoices|] == inv;
    if Has(invoices, period) {
      var k :| 0 <= k < |invoices| && invoices[k].period == period;
      assert t[k].period == period;
    }
  }

  lemma HasUpdate(invoices: seq<Invoice>, k: nat, inv: Invoice, period: Id)
    requires k < |invoices| && inv.period == invoices[k].period
    ensures Has(invoices[k := inv], period) <==> Has(invoices, period)
  {
    var t := invoices[k := inv];
    if Has(invoices, period) {
      var j :| 0 <= j < |invoices| && invoices[j].period == period;
      assert t[j].period == period;
    }
    if Has(t, period) {
      var j :| 0 <= j < |t| && t[j].period == period;
      assert invoices[j].period == period;
    }
  }

  lemma AppendKeepsInvoices(w: World, inv: Invoice)
    requires InvoiceLaw(w) && !Has(w.invoices, inv.period) && !TakenId(w.invoices, inv.id)
    ensures OnePerPeriod(w.invoices + [inv])
    ensures ClosedMeansInvoiced(w.periods[inv.period := PeriodClosed], w.invoices + [inv])
  {
    forall p ensures Has(w.invoices + [inv], p) <==> Has(w.invoices, p) || p == inv.period {
      HasAppend(w.invoices, inv, p);
    }
    assert forall j :: 0 <= j < |w.invoices| ==> Apart(w.invoices[j], inv);
    hide Has;
  }

  lemma PrepareKeepsInvoices(w: World, period: Id, rating: Rating, newId: string)
    requires InvoiceLaw(w)
    ensures InvoiceLaw(PrepareInvoice(w, period, rating, newId).0)
  {
    hide Has;
    hide TakenId;
    hide FindInvoice;
    var t := PrepareInvoice(w, period, rating, newId).0;
    if |t.invoices| > |w.invoices| {
      AppendKeepsInvoices(w, t.invoices[|w.invoices|]);
    }
  }

  lemma PrepareKeepsClosers(w: World, c: Id, period: Id, rating: Rating, newId: string)
    requires SettledLaw(w) && CloserLaw(w)
    ensures SettledLaw(DoPrepare(w, c, period, rating, newId)) && CloserLaw(DoPrepare(w, c, period, rating, newId))
  {
    hide Has;
    hide TakenId;
    hide FindInvoice;
    hide IsDebitOf;
    var t := DoPrepare(w, c, period, rating, newId);
    assert forall k :: 0 <= k < |w.invoices| ==> t.invoices[k] == w.invoices[k];
    assert SettledLaw(t);
    forall d | d in t.closers ensures PcOk(t, t.closers[d]) {
      assert d != c ==> PcOk(w, w.closers[d]);
      assert d == c && t.closers[c].Drafted? ==> LinkOk(t.account.funds.ledger, t.invoices[t.closers[c].k]);
    }
  }

  lemma PrepareKeeps(w: World, c: Id, period: Id, rating: Rating, newId: string)
    requires CloseLaw(w)
    ensures CloseLaw(DoPrepare(w, c, period, rating, newId))
  {
    PrepareKeepsInvoices(w, period, rating, newId);
    PrepareKeepsClosers(w, c, period, rating, newId);
    hide AccountBooks.BooksLaw;
    hide SettledLaw;
    hide CloserLaw;
    hide FindInvoice;
    hide OnePerPeriod;
    hide ClosedMeansInvoiced;
  }

  lemma PostKeeps(w: World, c: Id, now: Time, via: Method)
    requires CloseLaw(w)
    ensures CloseLaw(DoPost(w, c, now, via))
  {
    hide AccountBooks.BooksLaw;
    hide OnePerPeriod;
    hide ClosedMeansInvoiced;
    hide PostLedgerEntry;
    hide FindEntry;
    hide IsDebitOf;
    var t := DoPost(w, c, now, via);
    if c in w.closers && w.closers[c].Drafted? {
      var seen := w.closers[c].seen;
      var req := DebitOf(seen, now, via);
      AccountBooks.PostKeepsBooks(w.account, req);
      AccountReversals.PostGrows(w.account, req);
      PostedDebit(w.account, seen, now, via);
      LedgerGrows(w, w.(account := t.account));
      var u := w.(account := t.account);
      assert InvoiceLaw(t) && SettledLaw(t);
      assert PcOk(w, w.closers[c]);
      assert LinkOk(w.account.funds.ledger, w.invoices[w.closers[c].k]);
      SameDebit(w.account.funds.ledger, w.invoices[w.closers[c].k], seen);
      forall d | d in t.closers ensures PcOk(t, t.closers[d]) {
        assert d != c ==> PcOk(u, u.closers[d]);
      }
    }
  }

  /** Posting the debit leaves, or finds, exactly that debit. */
  lemma PostedDebit(s: State, inv: Invoice, now: Time, via: Method)
    ensures var r := PostLedgerEntry(s, DebitOf(inv, now, via));
            r.Done? ==>
              var e := FindEntry(r.state.funds.ledger, KeyOf(inv));
              e.Some? && IsDebitOf(r.state.funds.ledger, e.value, inv)
  {
    hide RunAutoTopUp;
  }

  lemma SameDebit(ledger: seq<Entry>, a: Invoice, b: Invoice)
    requires a.id == b.id && a.total == b.total
    ensures forall e: nat :: IsDebitOf(ledger, e, a) <==> IsDebitOf(ledger, e, b)
  { }

  lemma RecordKeepsInvoices(w: World, k: nat, ledgerId: Option<nat>)
    requires InvoiceLaw(w) && k < |w.invoices|
    ensures InvoiceLaw(RecordInvoiceSettlement(w, k, ledgerId))
  {
    var t := RecordInvoiceSettlement(w, k, ledgerId);
    forall p ensures Has(t.invoices, p) <==> Has(w.invoices, p) { HasUpdate(w.invoices, k, t.invoices[k], p); }
    hide Has;
  }

  lemma RecordKeeps(w: World, c: Id)
    requires CloseLaw(w)
    ensures CloseLaw(DoRecord(w, c))
  {
    hide AccountBooks.BooksLaw;
    hide OnePerPeriod;
    hide ClosedMeansInvoiced;
    var t := DoRecord(w, c);
    if c in w.closers && w.closers[c].Debited? {
      var Debited(k, seen, ledgerId) := w.closers[c];
      assert PcOk(w, w.closers[c]);
      RecordKeepsInvoices(w, k, ledgerId);
      SameDebit(w.account.funds.ledger, w.invoices[k], seen);
      SameDebit(w.account.funds.ledger, w.invoices[k], t.invoices[k]);
      hide IsDebitOf;
      assert InvoiceLaw(t);
      assert LinkOk(w.account.funds.ledger, w.invoices[k]);
      assert LinkOk(t.account.funds.ledger, t.invoices[k]);
      forall d | d in t.closers ensures PcOk(t, t.closers[d]) {
        assert d != c ==> PcOk(w, w.closers[d]);
      }
    }
  }

  lemma CrashKeeps(w: World, c: Id)
    requires CloseLaw(w)
    ensures CloseLaw(w.(closers := w.closers - {c}))
  {
    hide AccountBooks.BooksLaw;
    hide OnePerPeriod;
    hide ClosedMeansInvoiced;
    hide LinkOk;
    var t := w.(closers := w.closers - {c});
    forall d | d in t.closers ensures PcOk(t, t.closers[d]) { assert PcOk(w, w.closers[d]); }
  }

  lemma StepKeeps(w: World, op: Op)
    requires CloseLaw(w)
    ensures CloseLaw(Step(w, op))
  {
    hide CloseLaw;
    hide Account.Step;
    hide DoPrepare;
    hide DoPost;
    hide DoRecord;
    match op
    case OnAccount(a) => AccountStepKeeps(w, a);
    case Prepare(c, period, rating, newId) => PrepareKeeps(w, c, period, rating, newId);
    case PostDebit(c, now, via) => PostKeeps(w, c, now, via);
    case Record(c) => RecordKeeps(w, c);
    case Crash(c) => CrashKeeps(w, c);
  }

  /** Whatever attempts, crashes, retries and account operations there are. */
  lemma {:induction false} RunKeepsCloseLaw(s: State, ops: seq<Op>)
    requires Init(s)
    ensures CloseLaw(Run(s, ops))
  {
    hide Step;
    hide AccountBooks.EntryOk;
    if |ops| > 0 {
      hide CloseLaw;
      RunKeepsCloseLaw(s, ops[..|ops| - 1]);
      StepKeeps(Run(s, ops[..|ops| - 1]), ops[|ops| - 1]);
    }
  }

  // ---------------------------------------------------------------- one invoice, one debit

  /** Invoice k is its period's only one, at most one entry carries its key, and if it is settled with a positive
      total that entry exists and is a debit of exactly the total. */
  ghost predicate SettledOnceAt(w: World, k: nat)
    requires k < |w.invoices|
  {
    var inv := w.invoices[k]; var l := w.account.funds.ledger;
    && (forall j :: 0 <= j < |w.invoices| && w.invoices[j].period == inv.period ==> j == k)
    && (forall d, e :: 0 <= d < |l| && 0 <= e < |l| && l[d].key == KeyOf(inv) && l[e].key == KeyOf(inv) ==> d == e)
    && (inv.state.Settled? && inv.total > 0 ==> inv.link.Some? && IsDebitOf(l, inv.link.value, inv))
  }

  lemma SettledOnce(s: State, ops: seq<Op>, k: nat)
    requires Init(s) && k < |Run(s, ops).invoices|
    ensures SettledOnceAt(Run(s, ops), k)
  {
    RunKeepsCloseLaw(s, ops);
    hide Run;
    var w := Run(s, ops);
    AccountBooks.OneEntryPerKey(w.account.funds);
    hide AccountBooks.BooksLaw;
    assert LinkOk(w.account.funds.ledger, w.invoices[k]);
  }

  /** Preparing a period: an existing invoice is returned as it is; otherwise a rated, unclosed period gets one
      invoice of exactly the rated total and is closed, an unratable one is marked incomplete, and a failure leaves
      no trace. */
  lemma PrepareMeans(w: World, period: Id, rating: Rating, newId: string)
    requires InvoiceLaw(w)
    ensures var (t, k) := PrepareInvoice(w, period, rating, newId);
            if Has(w.invoices, period) then
              t.invoices == w.invoices && k.Some? && w.invoices[k.value].period == period
            else if rating.Rated? && 0 <= rating.total <= MAX_INT64 && !TakenId(w.invoices, newId) then
              && t.invoices == w.invoices + [Invoice(newId, period, rating.total, Issued, None)]
              && k == Some(|w.invoices|)
              && t.periods == w.periods[period := PeriodClosed]
            else
              && k.None? && t.invoices == w.invoices
              && t.periods == (if rating.Unratable? then w.periods[period := PeriodIncomplete] else w.periods)
  {
    hide FindInvoice;
    hide TakenId;
    assert Has(w.invoices, period) <==> period in w.periods && w.periods[period].PeriodClosed?;
    hide Has;
  }

  /** Recording a settlement: settled, total and id as they were, and the first ledger id kept. */
  lemma RecordMeans(w: World, k: nat, ledgerId: Option<nat>)
    requires k < |w.invoices|
    ensures var t := RecordInvoiceSettlement(w, k, ledgerId); var inv := w.invoices[k];
            && t == w.(invoices := t.invoices) && |t.invoices| == |w.invoices|
            && (forall j :: 0 <= j < |w.invoices| && j != k ==> t.invoices[j] == w.invoices[j])
            && t.invoices[k]
               == Invoice(inv.id, inv.period, inv.total, Settled, if inv.link.Some? then inv.link else ledgerId)
  { }

  /** An attempt that found its invoice settled has nothing left to link: in reachable worlds the second half of the
      condition for recording never decides. */
  lemma SettledHasNothingToLink(w: World, c: Id)
    requires CloseLaw(w) && c in w.closers && w.closers[c].Debited? && w.closers[c].seen.state.Settled?
    ensures !(w.closers[c].seen.link.None? && w.closers[c].ledgerId.Some?)
  {
    var Debited(k, seen, ledgerId) := w.closers[c];
    assert PcOk(w, w.closers[c]);
    if ledgerId.Some? {
      assert AccountBooks.EntryOk(w.account.funds.ledger, ledgerId.value);
    }
    hide ClosedMeansInvoiced;
    hide OnePerPeriod;
  }

  // ---------------------------------------------------------------- nobody else writes under the invoice scope

  predicate InvoiceKey(key: Key) { key.Named? && key.scope == SCOPE }

  /** An account operation that does not post under the invoice scope by itself. */
  predicate StaysOut(a: Account.Op) { a.OnMoney? && a.money.Post? ==> !InvoiceKey(a.money.post.key) }

  ghost predicate NoNewInvoiceKeys(l: seq<Entry>, m: seq<Entry>) {
    l <= m && forall e :: |l| <= e < |m| ==> !InvoiceKey(m[e].key)
  }

  lemma PostKeys(s: State, req: PostIn)
    requires !InvoiceKey(req.key)
    ensures PostLedgerEntry(s, req).Done? ==>
              NoNewInvoiceKeys(s.funds.ledger, PostLedgerEntry(s, req).state.funds.ledger)
  {
    hide RunAutoTopUp;
    hide FindEntry;
  }

  lemma TransitionKeys(s: State, i: nat, to: IntentState, ref: string)
    ensures TransitionIntent(s, i, to, ref).Done? ==>
              NoNewInvoiceKeys(s.funds.ledger, TransitionIntent(s, i, to, ref).state.funds.ledger)
  { }

  lemma AllocateKeys(s: State, k: nat, resolution: Option<Id>)
    requires k < |s.claims.events|
    ensures Allocate(s, k, resolution).Done? ==>
              NoNewInvoiceKeys(s.funds.ledger, Allocate(s, k, resolution).state.funds.ledger)
  {
    hide ClassifyReversal;
  }

  lemma MoneyKeys(s: State, op: MoneyOp)
    requires StaysOut(OnMoney(op))
    ensures MoneyStep(s, op).Done? ==> NoNewInvoiceKeys(s.funds.ledger, MoneyStep(s, op).state.funds.ledger)
  {
    hide PostLedgerEntry;
    hide TransitionIntent;
    hide Allocate;
    hide PutPolicy;
    hide DisablePolicy;
    hide BindHistorical;
    match op
    case Post(req) => PostKeys(s, req);
    case Transition(i, to, ref) => TransitionKeys(s, i, to, ref);
    case Reverse(req) =>
      AllocateKeys(s.(claims := s.claims.(events := s.claims.events + [Reversal(req, None, None)])), |s.claims.events|,
                   None);
    case Resolve(k, evidence, ok) =>
      if k < |s.claims.events| { AllocateKeys(s, k, Some(evidence)); }
    case _ =>
  }

  lemma AccountKeys(s: State, a: Account.Op)
    requires StaysOut(a)
    ensures NoNewInvoiceKeys(s.funds.ledger, Account.Step(s, a).funds.ledger)
  {
    hide MoneyStep;
    hide HandoffStep;
    hide ClosureStep;
    if a.OnMoney? { MoneyKeys(s, a.money); }
  }

  /** Entry e under the invoice scope is some invoice's debit. */
  predicate Explained(l: seq<Entry>, e: nat, invoices: seq<Invoice>) {
    exists k :: 0 <= k < |invoices| && IsDebitOf(l, e, invoices[k])
  }

  ghost predicate DebitLaw(w: World) {
    forall e: nat :: e < |w.account.funds.ledger| && InvoiceKey(w.account.funds.ledger[e].key) ==>
      Explained(w.account.funds.ledger, e, w.invoices)
  }

  lemma ExplainedGrows(l: seq<Entry>, m: seq<Entry>, e: nat, invoices: seq<Invoice>, t: seq<Invoice>)
    requires l <= m && Explained(l, e, invoices) && |invoices| <= |t|
    requires forall k :: 0 <= k < |invoices| ==> t[k].id == invoices[k].id && t[k].total == invoices[k].total
    ensures Explained(m, e, t)
  {
    var k :| 0 <= k < |invoices| && IsDebitOf(l, e, invoices[k]);
    assert IsDebitOf(m, e, t[k]);
  }

  predicate InvoicesGrow(invoices: seq<Invoice>, t: seq<Invoice>) {
    |invoices| <= |t| && forall k :: 0 <= k < |invoices| ==>
      t[k].id == invoices[k].id && t[k].total == invoices[k].total
  }

  /** The books grow, invoices keep id and total, and what is new under the scope is explained. */
  lemma DebitLawGrows(w: World, t: World)
    requires DebitLaw(w) && w.account.funds.ledger <= t.account.funds.ledger && InvoicesGrow(w.invoices, t.invoices)
    requires forall e: nat ::
               |w.account.funds.ledger| <= e < |t.account.funds.ledger| && InvoiceKey(t.account.funds.ledger[e].key) ==>
               Explained(t.account.funds.ledger, e, t.invoices)
    ensures DebitLaw(t)
  {
    var l, m := w.account.funds.ledger, t.account.funds.ledger;
    hide Explained;
    forall e: nat | e < |m| && InvoiceKey(m[e].key) ensures Explained(m, e, t.invoices) {
      if e < |l| { ExplainedGrows(l, m, e, w.invoices, t.invoices); }
    }
  }

  lemma PostKeepsDebits(w: World, c: Id, now: Time, via: Method)
    requires CloseLaw(w) && DebitLaw(w)
    ensures DebitLaw(DoPost(w, c, now, via))
  {
    var t := DoPost(w, c, now, via);
    hide AccountBooks.BooksLaw;
    if t.account != w.account {
      var seen := w.closers[c].seen;
      PostedDebit(w.account, seen, now, via);
      PostAppends(w.account, DebitOf(seen, now, via));
      assert PcOk(w, w.closers[c]);
      hide PostLedgerEntry;
      hide DebitLaw;
      hide FindEntry;
      var l, m := w.account.funds.ledger, t.account.funds.ledger;
      forall e: nat | |l| <= e < |m| ensures Explained(m, e, t.invoices) {
        SameDebit(m, seen, w.invoices[w.closers[c].k]);
        assert IsDebitOf(m, e, w.invoices[w.closers[c].k]);
      }
      DebitLawGrows(w, t);
    }
  }

  /** A post under a new key appends its own entry and no other. */
  lemma PostAppends(s: State, req: PostIn)
    ensures PostLedgerEntry(s, req).Done? && !HasKey(s.funds.ledger, req.key) ==>
              exists after :: PostLedgerEntry(s, req).state.funds.ledger
                              == s.funds.ledger + [Entry(req.direction, req.amount, req.reason, req.key, req.source,
                                                         after)]
    ensures PostLedgerEntry(s, req).Done? && HasKey(s.funds.ledger, req.key) ==> PostLedgerEntry(s, req).state == s
  {
    hide RunAutoTopUp;
    hide FindEntry;
  }

  predicate Polite(op: Op) { op.OnAccount? ==> StaysOut(op.op) }

  lemma StepKeepsDebits(w: World, op: Op)
    requires CloseLaw(w) && DebitLaw(w) && Polite(op)
    ensures DebitLaw(Step(w, op))
  {
    hide Account.Step;
    hide DoPost;
    hide Explained;
    hide CloseLaw;
    hide FindInvoice;
    match op
    case OnAccount(a) => AccountKeys(w.account, a); DebitLawGrows(w, Step(w, op));
    case PostDebit(c, now, via) => PostKeepsDebits(w, c, now, via);
    case _ => DebitLawGrows(w, Step(w, op));
  }

  /** When nobody else posts under the invoice scope, every entry there is the debit of an invoice, of exactly its
      total. */
  lemma {:induction false} RunKeepsDebits(s: State, ops: seq<Op>)
    requires Init(s) && forall i :: 0 <= i < |ops| ==> Polite(ops[i])
    ensures DebitLaw(Run(s, ops))
  {
    hide Step;
    if |ops| > 0 {
      hide DebitLaw;
      RunKeepsDebits(s, ops[..|ops| - 1]);
      RunKeepsCloseLaw(s, ops[..|ops| - 1]);
      StepKeepsDebits(Run(s, ops[..|ops| - 1]), ops[|ops| - 1]);
    }
  }

  /** The request is exactly the debit of an invoice that exists. */
  predicate MatchesInvoice(invoices: seq<Invoice>, req: PostIn) {
    exists k :: 0 <= k < |invoices| && KeyOf(invoices[k]) == req.key && req.direction.Debit?
      && req.amount == invoices[k].total && req.reason.InvoiceDebit?
  }

  /** The ledger does not reserve the scope: a post under it from elsewhere keeps the law exactly when it replays
      an entry or is itself the debit of an existing invoice. */
  lemma ForeignPostIff(w: World, req: PostIn)
    requires DebitLaw(w) && InvoiceKey(req.key) && PostLedgerEntry(w.account, req).Done?
    ensures DebitLaw(w.(account := PostLedgerEntry(w.account, req).state))
            <==> HasKey(w.account.funds.ledger, req.key) || MatchesInvoice(w.invoices, req)
  {
    PostAppends(w.account, req);
    hide PostLedgerEntry;
    hide HasKey;
    hide DebitLaw;
    var t := w.(account := PostLedgerEntry(w.account, req).state);
    var l, m := w.account.funds.ledger, t.account.funds.ledger;
    if HasKey(l, req.key) {
      assert t == w;
    } else {
      var n := |l|;
      assert InvoiceKey(m[n].key);
      assert Explained(m, n, w.invoices) <==> MatchesInvoice(w.invoices, req);
      assert DebitLaw(t) ==> Explained(m, n, w.invoices) by { LawAt(t, n); }
      if Explained(m, n, w.invoices) { DebitLawGrows(w, t); }
    }
  }

  lemma LawAt(w: World, e: nat)
    requires e < |w.account.funds.ledger| && InvoiceKey(w.account.funds.ledger[e].key)
    ensures DebitLaw(w) ==> Explained(w.account.funds.ledger, e, w.invoices)
  { }

  /** The failing input: a debit posted under the invoice scope by somebody else, with no invoice to match. */
  lemma ForeignDebit(s: State)
    requires Init(s) && s.funds.state.Active?
    ensures var post := PostIn(true, Debit, 5, Evidence.TWD, ManualAdjustmentDebit, Named(SCOPE, "ghost"), "console", 1,
                               Method("", false, false));
            && PostLedgerEntry(s, post).Done?
            && DebitLaw(World(s, map[], [], map[]))
            && !DebitLaw(World(PostLedgerEntry(s, post).state, map[], [], map[]))
  {
    var post := PostIn(true, Debit, 5, Evidence.TWD, ManualAdjustmentDebit, Named(SCOPE, "ghost"), "console", 1,
                       Method("", false, false));
    var w := World(s, map[], [], map[]);
    assert FindEntry(s.funds.ledger, post.key).None?;
    assert PostLedgerEntry(s, post).Done?;
    ForeignPostIff(w, post);
  }

  // ---------------------------------------------------------------- the program's own callers

  const DEBITS: string := "billing_debit/"

  /** Besides closing periods, the program posts only the debits its API takes in, under a scope of their own. */
  predicate ByTheProgram(op: Op) {
    op.OnAccount? && op.op.OnMoney? && op.op.money.Post? ==>
      op.op.money.post.key.Named? && DEBITS <= op.op.money.post.key.scope
  }

  lemma ProgramStaysOut(op: Op)
    requires ByTheProgram(op)
    ensures Polite(op) && (op.OnAccount? ==> AccountBooks.Reserved(op.op))
  {
    assert DEBITS[8] != SCOPE[8];
  }

  lemma StepKeepsCredits(w: World, op: Op)
    requires ByTheProgram(op) && AccountBooks.CreditLaw(w.account.funds)
    ensures AccountBooks.CreditLaw(Step(w, op).account.funds)
  {
    ProgramStaysOut(op);
    hide AccountBooks.CreditLaw;
    hide Account.Step;
    hide PostLedgerEntry;
    hide FindInvoice;
    match op
    case OnAccount(a) => AccountBooks.StepKeepsCredits(w.account, a);
    case PostDebit(c, now, via) =>
      if c in w.closers && w.closers[c].Drafted? {
        AccountBooks.PostKeepsCredits(w.account, DebitOf(w.closers[c].seen, now, via));
      }
    case _ =>
  }

  /** In every run of the program, with no further assumption: the balance is the sum of the ledger, an intent has its
      one credit exactly when it succeeded, and every entry in the invoice scope is an invoice's exact debit. */
  lemma {:induction false} ProgramKeepsBooks(s: State, ops: seq<Op>)
    requires Init(s) && forall i :: 0 <= i < |ops| ==> ByTheProgram(ops[i])
    ensures AccountBooks.BooksLaw(Run(s, ops).account.funds) && AccountBooks.CreditLaw(Run(s, ops).account.funds)
    ensures DebitLaw(Run(s, ops))
  {
    hide Step;
    RunKeepsCloseLaw(s, ops);
    forall i | 0 <= i < |ops| ensures Polite(ops[i]) { ProgramStaysOut(ops[i]); }
    RunKeepsDebits(s, ops);
    hide DebitLaw;
    hide AccountBooks.BooksLaw;
    if |ops| > 0 {
      hide AccountBooks.CreditLaw;
      ProgramKeepsBooks(s, ops[..|ops| - 1]);
      StepKeepsCredits(Run(s, ops[..|ops| - 1]), ops[|ops| - 1]);
    }
  }

  // ---------------------------------------------------------------- an attempt that finishes

  const VIA: Method := Method("", false, false)
  const DRAFT: Invoice := Invoice("inv", "p", 100, Issued, None)

  function Issuing(s: State): World {
    World(s, map["p" := PeriodClosed], [DRAFT], map["c" := Drafted(0, DRAFT)])
  }

  function Debiting(s: State): World {
    World(s, map["p" := PeriodClosed], [DRAFT], map["c" := Debited(0, DRAFT, Some(0))])
  }

  lemma Issues(s: State)
    ensures Step(World(s, map[], [], map[]), Op.Prepare("c", "p", Rated(100), "inv")) == Issuing(s)
  {
    hide Account.Step;
    hide DoPost;
    hide DoRecord;
    assert FindInvoice([], "p").None?;
    assert [] + [DRAFT] == [DRAFT];
  }

  lemma Debits(s: State, t: State)
    requires PostLedgerEntry(s, DebitOf(DRAFT, 1, VIA)) == Done(t)
    requires FindEntry(t.funds.ledger, KeyOf(DRAFT)) == Some(0)
    ensures Step(Issuing(s), PostDebit("c", 1, VIA)) == Debiting(t)
  {
    hide Account.Step;
    hide PostLedgerEntry;
    hide FindEntry;
    hide DoPrepare;
    hide DoRecord;
  }

  lemma Settles(s: State)
    ensures Step(Debiting(s), Record("c"))
            == World(s, map["p" := PeriodClosed], [DRAFT.(state := Settled, link := Some(0))], map["c" := Idle])
  {
    hide Account.Step;
    hide DoPrepare;
    hide DoPost;
  }

  /** From any new active account, an attempt issues an invoice over 100, debits it and settles it. */
  lemma PeriodCloses(s: State) returns (ops: seq<Op>)
    requires Init(s) && s.funds.state.Active?
    ensures var w := Run(s, ops);
            && w.invoices == [DRAFT.(state := Settled, link := Some(0))] && |w.account.funds.ledger| == 1
            && w.account.funds.balance == -100 && IsDebitOf(w.account.funds.ledger, 0, w.invoices[0])
  {
    hide Step;
    FirstDebit(s);
    var t := PostLedgerEntry(s, DebitOf(DRAFT, 1, VIA)).state;
    hide PostLedgerEntry;
    hide FindEntry;
    hide Init;
    Issues(s);
    Debits(s, t);
    Settles(t);
    assert Run(s, []) == World(s, map[], [], map[]);
    hide Run;
    var prepare, post := Op.Prepare("c", "p", Rated(100), "inv"), PostDebit("c", 1, VIA);
    RunNext(s, [], prepare);
    RunNext(s, [] + [prepare], post);
    RunNext(s, [] + [prepare] + [post], Record("c"));
    ops := [] + [prepare] + [post] + [Record("c")];
  }

  lemma FirstDebit(s: State)
    requires Init(s) && s.funds.state.Active?
    ensures var r := PostLedgerEntry(s, DebitOf(DRAFT, 1, VIA));
            && r.Done? && |r.state.funds.ledger| == 1 && r.state.funds.balance == -100
            && IsDebitOf(r.state.funds.ledger, 0, DRAFT) && FindEntry(r.state.funds.ledger, KeyOf(DRAFT)) == Some(0)
  {
  }
}
