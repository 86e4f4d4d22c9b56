/** Settlement evidence and the blockers it raises against a transfer or a closure. */
module Evidence {

  datatype Currency = TWD | USD | CNY

  predicate CanSettle(c: Currency) { c.TWD? }

  datatype Blocker =
    | BalanceEvidenceMissing | CurrencyUnsupported | BalanceNegative
    | UsageUnsettled | InvoiceEvidenceMissing | ProviderEvidenceMissing | FinancialEvidenceInvalid
    | UnpaidInvoices | OutstandingDebt | PaymentsPending | RefundsPending
    | DisputesOpen | SetupsPending | ProviderEventsUnresolved
    | BalancePositive | AccountIsClosed
    | HandoffNotConfirmable | SettlementEvidenceMissing | SettlementEvidenceStale
    | EvidenceUnavailable | RevocationsPending | AccountNotActive

  datatype Financial = Financial(
    balanceKnown: bool, currency: Currency, balance: int,
    usageSettled: bool, invoicesReconciled: bool, providerReconciled: bool,
    unpaidInvoices: int, debt: int, pendingPayments: int, pendingRefunds: int,
    openDisputes: int, pendingSetups: int, unresolvedEvents: int)

  /** The zero value the source decodes into when no receipt exists. */
  const NO_EVIDENCE: Financial := Financial(false, USD, 0, false, false, false, 0, 0, 0, 0, 0, 0, 0)

  /** Append the code if its condition holds. */
  function Add(s: seq<Blocker>, cond: bool, b: Blocker): (r: seq<Blocker>)
    ensures forall x :: x in r <==> x in s || (cond && x == b)
    ensures r == [] <==> s == [] && !cond
  {
    if cond then s + [b] else s
  }

  predicate HasNegative(e: Financial) {
    || e.unpaidInvoices < 0 || e.debt < 0 || e.pendingPayments < 0 || e.pendingRefunds < 0
    || e.openDisputes < 0 || e.pendingSetups < 0 || e.unresolvedEvents < 0
  }

  /** The balance is the store's own to report. */
  predicate AboutBalance(b: Blocker) { b.BalanceEvidenceMissing? || b.CurrencyUnsupported? || b.BalanceNegative? }

  function BalanceBlockers(e: Financial): (r: seq<Blocker>)
    ensures forall b :: b in r <==> Raises(e, b) && AboutBalance(b)
    ensures r == [] <==> e.balanceKnown && CanSettle(e.currency) && e.balance >= 0
  {
    var s := Add([], !e.balanceKnown, BalanceEvidenceMissing);
    var s := Add(s, e.balanceKnown && !CanSettle(e.currency), CurrencyUnsupported);
    Add(s, e.balanceKnown && e.balance < 0, BalanceNegative)
  }

  function EvidenceBlockers(e: Financial): (r: seq<Blocker>)
    ensures forall b :: b in r <==> Raises(e, b) && !Counted(b)
    ensures r == [] <==> e.balanceKnown && CanSettle(e.currency) && e.balance >= 0 && e.usageSettled
                         && e.invoicesReconciled && e.providerReconciled && !HasNegative(e)
  {
    var s := BalanceBlockers(e);
    var s := Add(s, !e.usageSettled, UsageUnsettled);
    var s := Add(s, !e.invoicesReconciled, InvoiceEvidenceMissing);
    var s := Add(s, !e.providerReconciled, ProviderEvidenceMissing);
    Add(s, HasNegative(e), FinancialEvidenceInvalid)
  }

  predicate Counted(b: Blocker) {
    || b.UnpaidInvoices? || b.OutstandingDebt? || b.PaymentsPending? || b.RefundsPending?
    || b.DisputesOpen? || b.SetupsPending? || b.ProviderEventsUnresolved?
  }

  /** The counted obligations with their codes, in the order the source checks them. */
  function Counts(e: Financial): seq<(int, Blocker)> {
    [(e.unpaidInvoices, UnpaidInvoices), (e.debt, OutstandingDebt), (e.pendingPayments, PaymentsPending),
     (e.pendingRefunds, RefundsPending), (e.openDisputes, DisputesOpen), (e.pendingSetups, SetupsPending),
     (e.unresolvedEvents, ProviderEventsUnresolved)]
  }

  function AddCounts(s: seq<Blocker>, checks: seq<(int, Blocker)>): (r: seq<Blocker>)
    ensures forall b :: b in r <==> b in s || exists i :: 0 <= i < |checks| && checks[i].0 > 0 && checks[i].1 == b
    ensures r == [] <==> s == [] && forall i :: 0 <= i < |checks| ==> checks[i].0 <= 0
  {
    if |checks| == 0 then s
    else
      var n := |checks| - 1;
      Add(AddCounts(s, checks[..n]), checks[n].0 > 0, checks[n].1)
  }

  /** The full list, in the source's order. */
  function TransferBlockers(e: Financial): seq<Blocker> {
    AddCounts(EvidenceBlockers(e), Counts(e))
  }

  /** Does blocker b stand against the transfer of an account with this evidence? */
  predicate Raises(e: Financial, b: Blocker) {
    match b
    case BalanceEvidenceMissing => !e.balanceKnown
    case CurrencyUnsupported => e.balanceKnown && !CanSettle(e.currency)
    case BalanceNegative => e.balanceKnown && e.balance < 0
    case UsageUnsettled => !e.usageSettled
    case InvoiceEvidenceMissing => !e.invoicesReconciled
    case ProviderEvidenceMissing => !e.providerReconciled
    case FinancialEvidenceInvalid => HasNegative(e)
    case UnpaidInvoices => e.unpaidInvoices > 0
    case OutstandingDebt => e.debt > 0
    case PaymentsPending => e.pendingPayments > 0
    case RefundsPending => e.pendingRefunds > 0
    case DisputesOpen => e.openDisputes > 0
    case SetupsPending => e.pendingSetups > 0
    case ProviderEventsUnresolved => e.unresolvedEvents > 0
    case _ => false
  }

  /** The blocker list, built by appends and one loop over the counted obligations. */
  method OwnershipTransferBlockers(e: Financial) returns (blockers: seq<Blocker>)
    ensures blockers == TransferBlockers(e)
  {
    blockers := [];
    if !e.balanceKnown {
      blockers := blockers + [BalanceEvidenceMissing];
    } else {
      if !CanSettle(e.currency) { blockers := blockers + [CurrencyUnsupported]; }
      if e.balance < 0 { blockers := blockers + [BalanceNegative]; }
    }
    if !e.usageSettled { blockers := blockers + [UsageUnsettled]; }
    if !e.invoicesReconciled { blockers := blockers + [InvoiceEvidenceMissing]; }
    if !e.providerReconciled { blockers := blockers + [ProviderEvidenceMissing]; }
    if HasNegative(e) { blockers := blockers + [FinancialEvidenceInvalid]; }
    assert blockers == EvidenceBlockers(e);
    ghost var head := blockers;
    var checks := Counts(e);
    for i := 0 to |checks|
      invariant blockers == AddCounts(head, checks[..i])
    {
      assert checks[..i + 1][..i] == checks[..i];
      if checks[i].0 > 0 { blockers := blockers + [checks[i].1]; }
    }
    assert checks[..|checks|] == checks;
  }

  function Position(b: Blocker): int {
    match b
    case UnpaidInvoices => 0 case OutstandingDebt => 1 case PaymentsPending => 2 case RefundsPending => 3
    case DisputesOpen => 4 case SetupsPending => 5 case ProviderEventsUnresolved => 6
    case _ => -1
  }

  lemma CountsCover(e: Financial, b: Blocker)
    ensures (exists i :: 0 <= i < |Counts(e)| && Counts(e)[i].0 > 0 && Counts(e)[i].1 == b)
            <==> Counted(b) && Raises(e, b)
  {
    if Counted(b) && Raises(e, b) {
      assert Counts(e)[Position(b)].0 > 0 && Counts(e)[Position(b)].1 == b;
    }
  }

  lemma TransferBlockersExact(e: Financial)
    ensures forall b :: b in TransferBlockers(e) <==> Raises(e, b)
  {
    forall b { CountsCover(e, b); }
  }

  /** Evidence under which a transfer has nothing against it. */
  predicate Clear(e: Financial) {
    && e.balanceKnown && CanSettle(e.currency) && e.balance >= 0
    && e.usageSettled && e.invoicesReconciled && e.providerReconciled
    && e.unpaidInvoices == e.debt == e.pendingPayments == e.pendingRefunds == 0
    && e.openDisputes == e.pendingSetups == e.unresolvedEvents == 0
  }

  lemma NoBlockersMeansClear(e: Financial)
    ensures TransferBlockers(e) == [] <==> Clear(e)
  {
    var c := Counts(e);
    assert c[0].0 == e.unpaidInvoices && c[1].0 == e.debt && c[2].0 == e.pendingPayments && c[3].0 == e.pendingRefunds;
    assert c[4].0 == e.openDisputes && c[5].0 == e.pendingSetups && c[6].0 == e.unresolvedEvents;
  }

  /** Closing is stricter than transferring: credit must be gone too. */
  function ClosureBlockers(e: Financial): seq<Blocker> {
    Add(TransferBlockers(e), e.balanceKnown && e.balance > 0, BalancePositive)
  }

  lemma NoClosureBlockersMeansZero(e: Financial)
    ensures ClosureBlockers(e) == [] <==> Clear(e) && e.balance == 0
  {
    NoBlockersMeansClear(e);
  }

  function Max(a: int, b: int): int { if a >= b then a else b }

  function Merge(external: Financial, local: Financial): Financial {
    external.(
      balanceKnown := local.balanceKnown, currency := local.currency, balance := local.balance,
      unpaidInvoices := Max(external.unpaidInvoices, local.unpaidInvoices),
      debt := Max(external.debt, local.debt),
      pendingPayments := Max(external.pendingPayments, local.pendingPayments),
      pendingRefunds := Max(external.pendingRefunds, local.pendingRefunds),
      pendingSetups := Max(external.pendingSetups, local.pendingSetups),
      unresolvedEvents := Max(external.unresolvedEvents, local.unresolvedEvents))
  }

  /** Merging the same local observation again changes nothing. */
  lemma MergeIdempotent(external: Financial, local: Financial)
    ensures Merge(Merge(external, local), local) == Merge(external, local)
  {
  }

  /** Where each blocker of merged evidence comes from, for all evidence on both sides. The balance is
      always the local one, completeness and disputes are always the collector's, and every other
      counted obligation stands as soon as one side reports it. */
  lemma MergedBlockers(external: Financial, local: Financial, b: Blocker)
    ensures b in TransferBlockers(Merge(external, local)) <==>
            match b
            case BalanceEvidenceMissing | CurrencyUnsupported | BalanceNegative => b in TransferBlockers(local)
            case UsageUnsettled | InvoiceEvidenceMissing | ProviderEvidenceMissing | DisputesOpen =>
              b in TransferBlockers(external)
            case FinancialEvidenceInvalid => HasNegative(Merge(external, local))
            case _ => b in TransferBlockers(external) || b in TransferBlockers(local)
  {
    TransferBlockersExact(Merge(external, local));
    TransferBlockersExact(external);
    TransferBlockersExact(local);
    hide TransferBlockers;
    hide EvidenceBlockers;
    hide AddCounts;
  }

  /** Completeness is the collector's to report. */
  predicate AboutCompleteness(b: Blocker) {
    b.UsageUnsettled? || b.InvoiceEvidenceMissing? || b.ProviderEvidenceMissing?
  }

  /** Some negative count of the collector meets a negative local one, or is the one merging leaves alone. */
  predicate NegativeSurvives(external: Financial, local: Financial) {
    || external.openDisputes < 0
    || (external.unpaidInvoices < 0 && local.unpaidInvoices < 0)
    || (external.debt < 0 && local.debt < 0)
    || (external.pendingPayments < 0 && local.pendingPayments < 0)
    || (external.pendingRefunds < 0 && local.pendingRefunds < 0)
    || (external.pendingSetups < 0 && local.pendingSetups < 0)
    || (external.unresolvedEvents < 0 && local.unresolvedEvents < 0)
  }

  lemma MergedNegative(external: Financial, local: Financial)
    ensures HasNegative(Merge(external, local)) <==> NegativeSurvives(external, local)
  {
  }

  /** Every blocker the collector reported, except about the balance, stands after merging. */
  ghost predicate KeepsExternal(external: Financial, local: Financial) {
    forall b :: b in TransferBlockers(external) && !AboutBalance(b) ==> b in TransferBlockers(Merge(external, local))
  }

  /** Every blocker the store knows of, except about completeness, stands after merging. */
  ghost predicate KeepsLocal(external: Financial, local: Financial) {
    forall b :: b in TransferBlockers(local) && !AboutCompleteness(b) ==> b in TransferBlockers(Merge(external, local))
  }

  /** The merge by itself keeps the collector's blockers exactly when no negative count of the collector is
      raised to a local count: a condition on the two reports alone, met by every report without negative counts. */
  lemma MergeOnlyAddsIff(external: Financial, local: Financial)
    ensures KeepsExternal(external, local) <==> (HasNegative(external) ==> NegativeSurvives(external, local))
  {
    TransferBlockersExact(external);
    MergedNegative(external, local);
    forall b { MergedBlockers(external, local, b); }
    hide Merge;
    hide TransferBlockers;
    if HasNegative(external) {
      assert FinancialEvidenceInvalid in TransferBlockers(external);
    }
  }

  /** What the store reports about itself counts up from zero and knows no disputes. */
  predicate Honest(local: Financial) { !HasNegative(local) && local.openDisputes == 0 }

  /** Reports without negative counts lose nothing to an honest local report, and hide nothing of it. */
  lemma MergeKeepsBoth(external: Financial, local: Financial)
    requires !HasNegative(external) && Honest(local)
    ensures KeepsExternal(external, local) && KeepsLocal(external, local) && !HasNegative(Merge(external, local))
  {
    MergeOnlyAddsIff(external, local);
    MergedNegative(external, local);
    TransferBlockersExact(local);
    forall b { MergedBlockers(external, local, b); }
    hide Merge;
    hide TransferBlockers;
  }

  /** The merge checks nothing itself: minus one unpaid invoice in the collector's report, which every recorder
      refuses before it merges, would be hidden by an honest local zero. */
  lemma NegativeCountHidden()
    ensures var external := NO_EVIDENCE.(unpaidInvoices := -1);
            Honest(NO_EVIDENCE) && HasNegative(external) && !KeepsExternal(external, NO_EVIDENCE)
  {
    var external := NO_EVIDENCE.(unpaidInvoices := -1);
    MergeOnlyAddsIff(external, NO_EVIDENCE);
  }
}
