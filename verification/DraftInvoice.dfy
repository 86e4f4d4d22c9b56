/** Building a draft invoice: index the rates, sum the facts, price the lines in key order, tax them line by
    line or on the invoice total, and reconcile. */
module DraftInvoice {
  import opened Common
  import opened Money
  import opened OtaCard
  import opened Aggregation
  import opened TaxAllocation

  datatype TaxMode = UnsetMode | LineMode | TotalMode | OtherMode

  /** What the caller fixes before any line exists; `rounding` is None when it is left empty. */
  datatype Header = Header(
    organization: string, pricingVersion: string, settleable: bool, from: int, until: int, draft: bool,
    mode: TaxMode, taxRate: Option<int>, rounding: Option<RoundingMode>, category: string)

  datatype PricingRate = PricingRate(id: string, version: string, terms: Rate)

  datatype Line = Line(
    key: Key, rateId: string, description: string, quantity: int, scale: int, unitPrice: int, unitPriceScale: int,
    rounding: RoundingMode, refs: multiset<string>, amounts: Amounts)

  datatype Invoice = Invoice(
    header: Header, lines: seq<Line>, subtotal: int, tax: int, total: int, settled: int, due: int)

  // ---------------------------------------------------------------- header, rates and windows

  predicate TaxTermsOk(h: Header) {
    && h.taxRate.Some? && 0 <= h.taxRate.value <= 10000
    && h.rounding.Some? && !h.rounding.value.OtherRounding?
  }

  predicate NoTaxTerms(h: Header) { h.taxRate.None? && h.rounding.None? && h.category == "" }

  function WithMode(h: Header): Header { if h.mode.UnsetMode? then h.(mode := LineMode) else h }

  predicate HeaderOk(h: Header) {
    && !Blank(h.organization) && !Blank(h.pricingVersion) && h.settleable && h.until > h.from && h.draft
    && match WithMode(h).mode
       case LineMode => NoTaxTerms(h)
       case TotalMode => TaxTermsOk(h) && !Blank(h.category)
       case _ => false
  }

  function Terms(rates: seq<PricingRate>): (r: seq<Rate>)
    ensures |r| == |rates| && forall i :: 0 <= i < |r| ==> r[i] == rates[i].terms
  {
    seq(|rates|, i requires 0 <= i < |rates| => rates[i].terms)
  }

  predicate RatesOk(version: string, rates: seq<PricingRate>) {
    && (forall i :: 0 <= i < |rates| ==> rates[i].version == "" || rates[i].version == version)
    && DistinctIds(Terms(rates))
  }

  /** The map a rate list indexes to. */
  ghost predicate IndexOf(m: map<Identity, PricingRate>, rates: seq<PricingRate>) {
    && m.Keys == Ids(Terms(rates))
    && (forall i :: 0 <= i < |rates| && IdOf(rates[i].terms) in m ==> m[IdOf(rates[i].terms)] == rates[i])
  }

  method IndexRates(version: string, rates: seq<PricingRate>) returns (ok: bool, m: map<Identity, PricingRate>)
    ensures ok <==> RatesOk(version, rates)
    ensures ok ==> IndexOf(m, rates)
  {
    m := map[];
    hide IdOf;
    for n := 0 to |rates|
      invariant forall i :: 0 <= i < n ==> rates[i].version == "" || rates[i].version == version
      invariant DistinctIds(Terms(rates[..n]))
      invariant IndexOf(m, rates[..n])
    {
      if rates[n].version != "" && rates[n].version != version { return false, m; }
      var key := IdOf(rates[n].terms);
      if key in m {
        RepeatedRate(rates, n);
        return false, m;
      }
      IndexGrows(m, rates, n);
      m := m[key := rates[n]];
    }
    assert rates[..|rates|] == rates;
    ok := true;
  }

  lemma IndexGrows(m: map<Identity, PricingRate>, rates: seq<PricingRate>, n: nat)
    requires n < |rates| && IndexOf(m, rates[..n]) && IdOf(rates[n].terms) !in m
    ensures IndexOf(m[IdOf(rates[n].terms) := rates[n]], rates[..n + 1])
    ensures DistinctIds(Terms(rates[..n])) ==> DistinctIds(Terms(rates[..n + 1]))
  {
    var done, next := rates[..n], rates[..n + 1];
    assert Terms(next) == Terms(done) + [rates[n].terms];
    IdsNext(Terms(done), rates[n].terms);
    forall i | 0 <= i < n ensures IdOf(next[i].terms) in m && m[IdOf(next[i].terms)] == next[i] {
      assert next[i] == done[i] && IdOf(Terms(done)[i]) in Ids(Terms(done));
    }
  }

  lemma RepeatedRate(rates: seq<PricingRate>, n: nat)
    requires n < |rates| && IdOf(rates[n].terms) in Ids(Terms(rates[..n]))
    ensures !DistinctIds(Terms(rates))
  {
    var i :| 0 <= i < n && IdOf(Terms(rates[..n])[i]) == IdOf(rates[n].terms);
    assert IdOf(Terms(rates)[i]) == IdOf(Terms(rates)[n]);
  }

  lemma IndexUnique(a: map<Identity, PricingRate>, b: map<Identity, PricingRate>, rates: seq<PricingRate>)
    requires IndexOf(a, rates) && IndexOf(b, rates)
    ensures a == b
  {
    forall id | id in a ensures a[id] == b[id] {
      var i :| 0 <= i < |Terms(rates)| && IdOf(Terms(rates)[i]) == id;
      assert a[id] == rates[i] && b[id] == rates[i];
    }
  }

  predicate InWindow(h: Header, f: Fact) {
    f.organization == h.organization && f.from >= h.from && f.until <= h.until && f.until > f.from
  }

  predicate WindowsOk(h: Header, facts: seq<Fact>) { forall i :: 0 <= i < |facts| ==> InWindow(h, facts[i]) }

  // ---------------------------------------------------------------- lines

  /** The ascending list of a set of keys. */
  ghost function LineKeys(keys: set<Key>): (r: seq<Key>)
    ensures Ascending(r) && Elements(r) == keys
  {
    if keys == {} then assert Elements([]) == {}; []
    else
      var k :| k in keys;
      var rest := LineKeys(keys - {k});
      InsertAscends(rest, k);
      InsertKey(rest, k)
  }

  method SortKeys(keys: set<Key>) returns (r: seq<Key>)
    ensures r == LineKeys(keys)
  {
    r := [];
    var rest := keys;
    assert Elements(r) == {};
    while rest != {}
      invariant rest <= keys
      invariant Ascending(r) && Elements(r) == keys - rest
      decreases |rest|
    {
      var k :| k in rest;
      InsertAscends(r, k);
      r := InsertKey(r, k);
      rest := rest - {k};
    }
    AscendingUnique(r, LineKeys(keys));
  }

  function PriceLine(mode: TaxMode, rate: Rate, a: Aggregate): (r: Result<Amounts>)
    ensures r.Ok? ==>
              0 <= r.value.subtotal && 0 <= r.value.tax && r.value.total == r.value.subtotal + r.value.tax <= MAX_INT64
    ensures r.Ok? && mode.TotalMode? ==> r.value.tax == 0
  {
    if mode.TotalMode? then
      var subtotal := PriceSubtotal(rate, a.quantity, a.scale);
      if subtotal.Err? then Err(subtotal.error) else Ok(Amounts(subtotal.value, 0, subtotal.value))
    else
      var price := PriceUsage(rate, a.quantity, a.scale);
      if price.Err? then Err(price.error) else Ok(Amounts(price.value.subtotal, price.value.tax, price.value.total))
  }

  function LineOf(rate: PricingRate, k: Key, a: Aggregate, amounts: Amounts): Line {
    Line(k, rate.id, rate.terms.description, a.quantity, a.scale, rate.terms.unitPriceMinor, rate.terms.unitPriceScale,
         rate.terms.roundingMode, a.refs, amounts)
  }

  /** Everything pricing reads: the rate index and the aggregates, one rate for every key. */
  datatype Book = Book(index: map<Identity, PricingRate>, agg: map<Key, Aggregate>)

  predicate Rated(b: Book) { forall k :: k in b.agg ==> RateId(k) in b.index }

  function Priced(b: Book, mode: TaxMode, k: Key): (r: Result<Amounts>)
    requires Rated(b) && k in b.agg
    ensures r.Ok? ==>
              0 <= r.value.subtotal && 0 <= r.value.tax && r.value.total == r.value.subtotal + r.value.tax <= MAX_INT64
    ensures r.Ok? && mode.TotalMode? ==> r.value.tax == 0
  {
    PriceLine(mode, b.index[RateId(k)].terms, b.agg[k])
  }

  ghost predicate AllPriced(b: Book, mode: TaxMode) {
    Rated(b) && forall k :: k in b.agg ==> Priced(b, mode, k).Ok?
  }

  /** The amounts of the lines before any invoice-level tax. */
  ghost function PricedAmounts(b: Book, mode: TaxMode, keys: seq<Key>): (r: seq<Amounts>)
    requires AllPriced(b, mode) && forall i :: 0 <= i < |keys| ==> keys[i] in b.agg
    ensures |r| == |keys| && forall i :: 0 <= i < |r| ==> Priced(b, mode, keys[i]) == Ok(r[i])
  {
    seq(|keys|, i requires 0 <= i < |keys| => Priced(b, mode, keys[i]).value)
  }

  function LineTotals(lines: seq<Amounts>): (r: seq<int>)
    ensures |r| == |lines| && forall i :: 0 <= i < |r| ==> r[i] == lines[i].total
  {
    seq(|lines|, i requires 0 <= i < |lines| => lines[i].total)
  }

  function AmountsOf(lines: seq<Line>): (r: seq<Amounts>)
    ensures |r| == |lines| && forall i :: 0 <= i < |r| ==> r[i] == lines[i].amounts
  {
    seq(|lines|, i requires 0 <= i < |lines| => lines[i].amounts)
  }

  lemma SumAppend(s: seq<int>, x: int)
    ensures Sum(s + [x]) == Sum(s) + x
  {
    assert (s + [x])[..|s|] == s;
  }

  /** Columns of one more line. */
  lemma ColumnsAppend(lines: seq<Amounts>, a: Amounts)
    ensures Sum(Subtotals(lines + [a])) == Sum(Subtotals(lines)) + a.subtotal
    ensures Sum(Taxes(lines + [a])) == Sum(Taxes(lines)) + a.tax
    ensures Sum(LineTotals(lines + [a])) == Sum(LineTotals(lines)) + a.total
  {
    assert Subtotals(lines + [a]) == Subtotals(lines) + [a.subtotal];
    assert Taxes(lines + [a]) == Taxes(lines) + [a.tax];
    assert LineTotals(lines + [a]) == LineTotals(lines) + [a.total];
    SumAppend(Subtotals(lines), a.subtotal);
    SumAppend(Taxes(lines), a.tax);
    SumAppend(LineTotals(lines), a.total);
  }

  lemma {:induction false} ColumnsAdd(lines: seq<Amounts>)
    requires forall i :: 0 <= i < |lines| ==> lines[i].total == lines[i].subtotal + lines[i].tax
    ensures Sum(LineTotals(lines)) == Sum(Subtotals(lines)) + Sum(Taxes(lines))
  {
    if |lines| > 0 {
      var n := |lines| - 1;
      ColumnsAdd(lines[..n]);
      assert lines == lines[..n] + [lines[n]];
      ColumnsAppend(lines[..n], lines[n]);
    }
  }

  lemma ColumnPrefix(lines: seq<Amounts>, n: nat)
    requires n <= |lines|
    requires forall i :: 0 <= i < |lines| ==>
              lines[i].subtotal >= 0 && lines[i].tax >= 0 && lines[i].total == lines[i].subtotal + lines[i].tax
    ensures 0 <= Sum(Subtotals(lines[..n])) && 0 <= Sum(Taxes(lines[..n]))
    ensures Sum(LineTotals(lines[..n])) == Sum(Subtotals(lines[..n])) + Sum(Taxes(lines[..n])) <= Sum(LineTotals(lines))
  {
    assert LineTotals(lines)[..n] == LineTotals(lines[..n]);
    SumPrefix(LineTotals(lines), n);
    ColumnsAdd(lines[..n]);
    SumPrefix(Subtotals(lines[..n]), n);
    SumPrefix(Taxes(lines[..n]), n);
    assert Subtotals(lines[..n])[..n] == Subtotals(lines[..n]);
    assert Taxes(lines[..n])[..n] == Taxes(lines[..n]);
  }

  lemma KeyMember(keys: set<Key>, i: nat)
    requires i < |LineKeys(keys)|
    ensures LineKeys(keys)[i] in keys
  {
    assert LineKeys(keys)[i] in Elements(LineKeys(keys));
  }

  /** The amounts of all lines before invoice-level tax, in line order. */
  ghost function Base(b: Book, mode: TaxMode): (r: seq<Amounts>)
    requires AllPriced(b, mode)
    ensures |r| == |LineKeys(b.agg.Keys)|
    ensures forall i :: 0 <= i < |r| ==>
              LineKeys(b.agg.Keys)[i] in b.agg && Priced(b, mode, LineKeys(b.agg.Keys)[i]) == Ok(r[i])
  {
    var keys := LineKeys(b.agg.Keys);
    assert forall i :: 0 <= i < |keys| ==> keys[i] in b.agg by {
      forall i | 0 <= i < |keys| ensures keys[i] in b.agg { KeyMember(b.agg.Keys, i); }
    }
    PricedAmounts(b, mode, keys)
  }

  /** Each line carries its rate's terms and the sums of its own facts. */
  ghost predicate LinesFor(b: Book, lines: seq<Line>)
    requires Rated(b)
  {
    var keys := LineKeys(b.agg.Keys);
    && |lines| == |keys|
    && forall i :: 0 <= i < |keys| ==>
         keys[i] in b.agg && lines[i] == LineOf(b.index[RateId(keys[i])], keys[i], b.agg[keys[i]], lines[i].amounts)
  }

  ghost predicate LinesFit(b: Book, mode: TaxMode) {
    AllPriced(b, mode) && Sum(LineTotals(Base(b, mode))) <= MAX_INT64
  }

  /** The line is the priced, filled-in line of key k. */
  predicate LineAt(b: Book, mode: TaxMode, k: Key, line: Line)
    requires Rated(b)
  {
    k in b.agg && Priced(b, mode, k) == Ok(line.amounts)
      && line == LineOf(b.index[RateId(k)], k, b.agg[k], line.amounts)
  }

  ghost predicate PricedSoFar(b: Book, mode: TaxMode, lines: seq<Line>) {
    var keys := LineKeys(b.agg.Keys);
    Rated(b) && |lines| <= |keys| && forall i :: 0 <= i < |lines| ==> LineAt(b, mode, keys[i], lines[i])
  }

  lemma PriceNext(b: Book, mode: TaxMode, lines: seq<Line>, line: Line)
    requires PricedSoFar(b, mode, lines) && |lines| < |LineKeys(b.agg.Keys)|
    requires LineAt(b, mode, LineKeys(b.agg.Keys)[|lines|], line)
    ensures PricedSoFar(b, mode, lines + [line])
  {
    hide LineKeys;
    hide LineAt;
  }

  lemma SumsNext(lines: seq<Line>, line: Line)
    ensures ColumnSums(AmountsOf(lines + [line])) == Plus(ColumnSums(AmountsOf(lines)), line.amounts)
  {
    assert AmountsOf(lines + [line]) == AmountsOf(lines) + [line.amounts];
    ColumnsAppend(AmountsOf(lines), line.amounts);
  }

  function Plus(a: Amounts, b: Amounts): Amounts { Amounts(a.subtotal + b.subtotal, a.tax + b.tax, a.total + b.total) }

  /** The pricing loop, with its three overflow checks. */
  method PriceLines(b: Book, mode: TaxMode, keys: seq<Key>) returns (r: Result<(seq<Line>, Amounts)>)
    requires Rated(b) && keys == LineKeys(b.agg.Keys)
    ensures r.Ok? <==> LinesFit(b, mode)
    ensures r.Ok? ==> LinesFor(b, r.value.0) && AmountsOf(r.value.0) == Base(b, mode)
    ensures r.Ok? ==> r.value.1 == ColumnSums(Base(b, mode))
  {
    hide LineKeys;
    hide PricedSoFar;
    hide ColumnSums;
    hide Priced;
    var lines: seq<Line> := [];
    var sum := Amounts(0, 0, 0);
    NothingPriced(b, mode);
    for n := 0 to |keys|
      invariant |lines| == n && PricedSoFar(b, mode, lines)
      invariant sum == ColumnSums(AmountsOf(lines)) && sum.total <= MAX_INT64
    {
      var k := keys[n];
      KeyMember(b.agg.Keys, n);
      var price := Priced(b, mode, k);
      if price.Err? { return Err(price.error); }
      var a := price.value;
      var line := LineOf(b.index[RateId(k)], k, b.agg[k], a);
      PriceNext(b, mode, lines, line);
      SumsNext(lines, line);
      lines := lines + [line];
      if a.subtotal > MAX_INT64 - sum.subtotal || a.tax > MAX_INT64 - sum.tax || a.total > MAX_INT64 - sum.total {
        PrefixFits(b, mode, lines);
        return Err(Overflow);
      }
      sum := Plus(sum, a);
    }
    AllLinesPriced(b, mode, lines);
    assert LinesFit(b, mode) by { TotalColumn(AmountsOf(lines)); }
    return Ok((lines, sum));
  }

  lemma NothingPriced(b: Book, mode: TaxMode)
    requires Rated(b)
    ensures PricedSoFar(b, mode, []) && ColumnSums(AmountsOf([])) == Amounts(0, 0, 0)
  { }

  function ColumnSums(lines: seq<Amounts>): Amounts {
    Amounts(Sum(Subtotals(lines)), Sum(Taxes(lines)), Sum(LineTotals(lines)))
  }

  lemma TotalColumn(lines: seq<Amounts>)
    ensures ColumnSums(lines).total == Sum(LineTotals(lines))
  { }

  /** Amounts priced for a prefix of the lines are a prefix of all of them, so they fit when all do. */
  lemma PrefixFits(b: Book, mode: TaxMode, lines: seq<Line>)
    requires PricedSoFar(b, mode, lines)
    ensures var s := ColumnSums(AmountsOf(lines));
            LinesFit(b, mode) ==> s.subtotal <= MAX_INT64 && s.tax <= MAX_INT64 && s.total <= MAX_INT64
  {
    hide LineKeys;
    if LinesFit(b, mode) {
      var base, amounts := Base(b, mode), AmountsOf(lines);
      assert amounts == base[..|amounts|];
      ColumnPrefix(base, |amounts|);
    }
  }

  lemma AllLinesPriced(b: Book, mode: TaxMode, lines: seq<Line>)
    requires PricedSoFar(b, mode, lines) && |lines| == |LineKeys(b.agg.Keys)|
    ensures AllPriced(b, mode) && AmountsOf(lines) == Base(b, mode) && LinesFor(b, lines)
  {
    hide LineKeys;
    EveryKeyPriced(b, mode, AmountsOf(lines));
  }

  lemma EveryKeyPriced(b: Book, mode: TaxMode, amounts: seq<Amounts>)
    requires Rated(b) && |amounts| == |LineKeys(b.agg.Keys)|
    requires forall i :: 0 <= i < |amounts| ==>
               LineKeys(b.agg.Keys)[i] in b.agg && Priced(b, mode, LineKeys(b.agg.Keys)[i]) == Ok(amounts[i])
    ensures AllPriced(b, mode) && amounts == Base(b, mode)
  {
    var keys := LineKeys(b.agg.Keys);
    hide LineKeys;
    forall k | k in b.agg ensures Priced(b, mode, k).Ok? {
      assert k in Elements(keys);
      var i :| 0 <= i < |keys| && keys[i] == k;
    }
    assert amounts == Base(b, mode);
  }

  // ---------------------------------------------------------------- reconciliation

  predicate LineReconciles(a: Amounts) {
    a.subtotal >= 0 && a.tax >= 0 && a.total >= 0 && a.total == a.subtotal + a.tax && IsInt64(a.total)
  }

  /** What ValidateInvoiceTotals checks, said at once. */
  ghost predicate Reconciles(inv: Invoice) {
    var amounts := AmountsOf(inv.lines);
    && (forall i :: 0 <= i < |amounts| ==> LineReconciles(amounts[i]))
    && inv.subtotal == Sum(Subtotals(amounts)) && inv.tax == Sum(Taxes(amounts)) && IsInt64(inv.subtotal)
    && IsInt64(inv.tax)
    && inv.total == inv.subtotal + inv.tax == inv.settled + inv.due && IsInt64(inv.total) && inv.settled >= 0
    && inv.due >= 0
    && TaxReconciles(inv.header, inv.subtotal, inv.tax)
  }

  predicate TaxReconciles(h: Header, subtotal: int, tax: int) {
    match h.mode
    case TotalMode => TaxTermsOk(h) && h.category != ""
      && RoundedInt64(subtotal * h.taxRate.value, 10000, h.rounding.value) == Ok(tax)
    case OtherMode => false
    case _ => NoTaxTerms(h)
  }

  /** The line loop, over unbounded integers. */
  method SumLines(lines: seq<Line>) returns (ok: bool, subtotal: int, tax: int)
    ensures ok <==> forall i :: 0 <= i < |lines| ==> LineReconciles(AmountsOf(lines)[i])
    ensures ok ==> subtotal == Sum(Subtotals(AmountsOf(lines))) && tax == Sum(Taxes(AmountsOf(lines)))
  {
    hide LineReconciles;
    ghost var amounts := AmountsOf(lines);
    subtotal, tax := 0, 0;
    for n := 0 to |lines|
      invariant subtotal == Sum(Subtotals(amounts[..n])) && tax == Sum(Taxes(amounts[..n]))
      invariant forall i :: 0 <= i < n ==> LineReconciles(amounts[i])
    {
      var a := lines[n].amounts;
      assert a == amounts[n];
      if !LineReconciles(a) { return false, subtotal, tax; }
      assert amounts[..n + 1] == amounts[..n] + [a];
      ColumnsAppend(amounts[..n], a);
      subtotal, tax := subtotal + a.subtotal, tax + a.tax;
    }
    assert amounts[..|amounts|] == amounts;
    ok := true;
  }

  /** The lines, then the invoice level. */
  method ValidateInvoiceTotals(inv: Invoice) returns (r: Option<BillingError>)
    ensures r.None? <==> Reconciles(inv)
  {
    hide LineReconciles;
    var ok, subtotal, tax := SumLines(inv.lines);
    if !ok { return Some(InvoiceMismatch); }
    if !IsInt64(subtotal) || !IsInt64(tax) { return Some(Overflow); }
    if subtotal != inv.subtotal || tax != inv.tax || !IsInt64(inv.subtotal + inv.tax)
       || inv.subtotal + inv.tax != inv.total
       || inv.settled < 0 || inv.due < 0 || !IsInt64(inv.settled + inv.due) || inv.settled + inv.due != inv.total {
      return Some(InvoiceMismatch);
    }
    if !TaxReconciles(inv.header, inv.subtotal, inv.tax) { return Some(InvoiceMismatch); }
    return None;
  }

  // ---------------------------------------------------------------- the draft

  /** Pricing, and on the invoice total its tax, stay in range. */
  ghost predicate Payable(h: Header, b: Book) {
    var mode := WithMode(h).mode;
    && LinesFit(b, mode)
    && (mode.TotalMode? ==> TotalTaxFits(h, Sum(Subtotals(Base(b, mode)))))
  }

  predicate TotalTaxFits(h: Header, subtotal: int) {
    TaxTermsOk(h) &&
    var tax := RoundedInt64(subtotal * h.taxRate.value, 10000, h.rounding.value);
    tax.Ok? && IsInt64(subtotal + tax.value)
  }

  /** The one draft for a header and its book: lines in key order with the sums of their facts, priced by their
      rates; on the invoice total, the rounded tax shared out by largest remainder; totals that add up. */
  ghost predicate IsDraft(h: Header, b: Book, inv: Invoice) {
    && HeaderOk(h) && inv.header == WithMode(h) && Payable(h, b) && LinesFor(b, inv.lines)
    && TaxesFor(inv.header, Base(b, inv.header.mode), AmountsOf(inv.lines), inv.tax)
    && inv.subtotal == Sum(Subtotals(Base(b, inv.header.mode))) && inv.total == inv.subtotal + inv.tax
    && inv.settled == 0 && inv.due == inv.total
  }

  ghost predicate TaxesFor(h: Header, base: seq<Amounts>, amounts: seq<Amounts>, tax: int) {
    if !h.mode.TotalMode? then amounts == base && tax == Sum(Taxes(base))
    else
      && TaxTermsOk(h) && Subtotals(amounts) == Subtotals(base)
      && RoundedInt64(Sum(Subtotals(base)) * h.taxRate.value, 10000, h.rounding.value) == Ok(tax)
      && LargestRemainder(Floors(Subtotals(base), h.taxRate.value), Remainders(Subtotals(base), h.taxRate.value), tax,
                          Taxes(amounts))
      && forall i :: 0 <= i < |amounts| ==> LineAdds(amounts[i])
  }

  function WithAmounts(lines: seq<Line>, amounts: seq<Amounts>): (r: seq<Line>)
    requires |lines| == |amounts|
    ensures AmountsOf(r) == amounts
    ensures |r| == |lines| && forall i :: 0 <= i < |r| ==> r[i] == lines[i].(amounts := amounts[i])
  {
    seq(|lines|, i requires 0 <= i < |lines| => lines[i].(amounts := amounts[i]))
  }

  lemma RepricedLines(b: Book, lines: seq<Line>, amounts: seq<Amounts>)
    requires Rated(b) && LinesFor(b, lines) && |lines| == |amounts|
    ensures LinesFor(b, WithAmounts(lines, amounts))
  {
    hide LineKeys;
  }

  /** Tax on the invoice total, shared over the lines through the in-place allocation. */
  method TaxOnTotal(h: Header, lines: seq<Line>, subtotal: int) returns (r: Result<(seq<Line>, Totals)>)
    requires TaxTermsOk(h) && h.mode.TotalMode?
    requires subtotal == Sum(Subtotals(AmountsOf(lines))) && forall i :: 0 <= i < |lines| ==>
              lines[i].amounts.subtotal >= 0
    ensures r.Ok? <==> TotalTaxFits(h, subtotal)
    ensures r.Ok? ==> r.value.1.total == subtotal + r.value.1.tax && |r.value.0| == |lines|
    ensures r.Ok? ==> r.value.0 == WithAmounts(lines, AmountsOf(r.value.0))
    ensures r.Ok? ==> TaxesFor(h, AmountsOf(lines), AmountsOf(r.value.0), r.value.1.tax)
  {
    var base := AmountsOf(lines);
    var amounts := new Amounts[|base|](i requires 0 <= i < |base| => base[i]);
    assert amounts[..] == base;
    var totals := AllocateInvoiceTax(amounts, subtotal, h.taxRate.value, h.rounding.value);
    if totals.Err? { return Err(totals.error); }
    var taxed := WithAmounts(lines, amounts[..]);
    assert AmountsOf(taxed) == amounts[..];
    return Ok((taxed, totals.value));
  }

  method Assemble(h: Header, b: Book) returns (r: Result<Invoice>)
    requires HeaderOk(h) && Rated(b)
    ensures r.Ok? <==> Payable(h, b)
    ensures r.Ok? ==> IsDraft(h, b, r.value)
  {
    hide LineKeys;
    hide LinesFor;
    hide AllPriced;
    var mode := WithMode(h).mode;
    var keys := SortKeys(b.agg.Keys);
    var priced := PriceLines(b, mode, keys);
    if priced.Err? { return Err(priced.error); }
    var (lines, sums) := priced.value;
    BaseAdds(b, mode);
    if mode.TotalMode? {
      assert forall i :: 0 <= i < |lines| ==> lines[i].amounts == Base(b, mode)[i] by {
        assert forall i :: 0 <= i < |lines| ==> AmountsOf(lines)[i] == lines[i].amounts;
      }
      var taxed := TaxOnTotal(h, lines, sums.subtotal);
      if taxed.Err? { return Err(taxed.error); }
      RepricedLines(b, lines, AmountsOf(taxed.value.0));
      var inv := Invoice(WithMode(h), taxed.value.0, sums.subtotal, taxed.value.1.tax, taxed.value.1.total, 0,
                         taxed.value.1.total);
      return Ok(inv);
    }
    var inv := Invoice(WithMode(h), lines, sums.subtotal, sums.tax, sums.total, 0, sums.total);
    return Ok(inv);
  }

  lemma BaseAdds(b: Book, mode: TaxMode)
    requires AllPriced(b, mode)
    ensures Sum(LineTotals(Base(b, mode))) == Sum(Subtotals(Base(b, mode))) + Sum(Taxes(Base(b, mode)))
    ensures forall i :: 0 <= i < |Base(b, mode)| ==>
              Base(b, mode)[i].subtotal >= 0 && Base(b, mode)[i].tax >= 0
                && Base(b, mode)[i].total == Base(b, mode)[i].subtotal + Base(b, mode)[i].tax
  {
    hide LineKeys;
    ColumnsAdd(Base(b, mode));
  }

  predicate GoodBase(base: seq<Amounts>) {
    && (forall i :: 0 <= i < |base| ==>
          base[i].subtotal >= 0 && base[i].tax >= 0 && base[i].total == base[i].subtotal + base[i].tax)
    && Sum(LineTotals(base)) <= MAX_INT64
  }

  /** Once pricing and allocation succeed, every draft reconciles, in both tax modes. */
  lemma DraftReconciles(h: Header, b: Book, inv: Invoice)
    requires IsDraft(h, b, inv)
    ensures Reconciles(inv)
  {
    hide LineKeys;
    hide AllPriced;
    hide LinesFor;
    hide TaxesFor;
    hide Reconciles;
    BaseAdds(b, inv.header.mode);
    ReconcilesOn(inv, Base(b, inv.header.mode));
  }

  lemma ReconcilesOn(inv: Invoice, base: seq<Amounts>)
    requires GoodBase(base) && TaxesFor(inv.header, base, AmountsOf(inv.lines), inv.tax)
    requires inv.subtotal == Sum(Subtotals(base))
    requires match inv.header.mode
             case LineMode => NoTaxTerms(inv.header)
             case TotalMode => inv.header.category != "" && TotalTaxFits(inv.header, inv.subtotal)
             case _ => false
    requires inv.total == inv.subtotal + inv.tax && inv.settled == 0 && inv.due == inv.total
    ensures Reconciles(inv)
  {
    hide LineReconciles;
    OwnTaxReconciles(base);
    if inv.header.mode.TotalMode? {
      SharedTaxReconciles(inv.header, base, AmountsOf(inv.lines), inv.tax);
      hide TaxesFor;
    }
  }

  lemma OwnTaxReconciles(lines: seq<Amounts>)
    requires GoodBase(lines)
    ensures forall i :: 0 <= i < |lines| ==> LineReconciles(lines[i])
    ensures 0 <= Sum(Subtotals(lines)) && 0 <= Sum(Taxes(lines))
    ensures Sum(Subtotals(lines)) + Sum(Taxes(lines)) <= MAX_INT64
  {
    forall i | 0 <= i < |lines| ensures LineReconciles(lines[i]) { LineInRange(lines, i); }
    ColumnPrefix(lines, |lines|);
    assert lines[..|lines|] == lines;
  }

  lemma LineInRange(lines: seq<Amounts>, i: nat)
    requires i < |lines| && Sum(LineTotals(lines)) <= MAX_INT64
    requires forall j :: 0 <= j < |lines| ==>
              lines[j].subtotal >= 0 && lines[j].tax >= 0 && lines[j].total == lines[j].subtotal + lines[j].tax
    ensures LineReconciles(lines[i])
  {
    SumPrefix(LineTotals(lines), i);
  }

  lemma SharedTaxReconciles(h: Header, base: seq<Amounts>, amounts: seq<Amounts>, tax: int)
    requires h.mode.TotalMode? && TaxesFor(h, base, amounts, tax) && IsInt64(Sum(Subtotals(base)) + tax)
    requires forall i :: 0 <= i < |base| ==> base[i].subtotal >= 0
    ensures Sum(Subtotals(amounts)) == Sum(Subtotals(base)) && Sum(Taxes(amounts)) == tax >= 0
    ensures forall i :: 0 <= i < |amounts| ==> LineReconciles(amounts[i])
  {
    forall i | 0 <= i < |amounts| ensures LineReconciles(amounts[i]) {
      assert amounts[i].subtotal == Subtotals(amounts)[i] == Subtotals(base)[i] == base[i].subtotal;
      LineAmounts(amounts);
      LineFits(amounts, i);
    }
  }

  lemma LineAmounts(amounts: seq<Amounts>)
    requires forall i :: 0 <= i < |amounts| ==> LineAdds(amounts[i])
    ensures forall i :: 0 <= i < |amounts| ==> amounts[i].tax >= 0
  { }

  // ---------------------------------------------------------------- from facts to draft

  /** The book of a fact list under a rate list. */
  ghost predicate IsBook(b: Book, facts: seq<Fact>, rates: seq<PricingRate>) {
    IndexOf(b.index, rates) && Sums(b.agg, Billable(facts, OtaEnabled(Terms(rates))))
  }

  ghost predicate InputsOk(h: Header, facts: seq<Fact>, rates: seq<PricingRate>) {
    && HeaderOk(h) && RatesOk(h.pricingVersion, rates) && WindowsOk(h, facts) && CardComplete(Terms(rates))
    && (forall i :: 0 <= i < |facts| ==> ValidOtaFact(facts[i]))
    && Aggregable(Billable(facts, OtaEnabled(Terms(rates))), Ids(Terms(rates)))
  }

  /** Exactly when building succeeds. */
  ghost predicate Buildable(h: Header, facts: seq<Fact>, rates: seq<PricingRate>) {
    InputsOk(h, facts, rates) && forall b :: IsBook(b, facts, rates) ==> Payable(h, b)
  }

  /** What building yields. */
  ghost predicate DraftOf(h: Header, facts: seq<Fact>, rates: seq<PricingRate>, inv: Invoice) {
    exists b :: IsBook(b, facts, rates) && IsDraft(h, b, inv)
  }

  lemma BookUnique(a: Book, b: Book, facts: seq<Fact>, rates: seq<PricingRate>)
    requires IsBook(a, facts, rates) && IsBook(b, facts, rates)
    ensures a == b
  {
    IndexUnique(a.index, b.index, rates);
    SumsUnique(a.agg, b.agg, Billable(facts, OtaEnabled(Terms(rates))));
  }

  lemma BookRated(b: Book, facts: seq<Fact>, rates: seq<PricingRate>)
    requires IsBook(b, facts, rates) && AllRateable(Billable(facts, OtaEnabled(Terms(rates))), Ids(Terms(rates)))
    ensures Rated(b)
  {
    var billable := Billable(facts, OtaEnabled(Terms(rates)));
    forall k | k in b.agg ensures RateId(k) in b.index {
      assert Mentions(billable, k);
      var i :| 0 <= i < |billable| && KeyOf(billable[i]) == k;
      assert Rateable(billable[i], Ids(Terms(rates)));
    }
  }

  method CheckWindows(h: Header, facts: seq<Fact>) returns (ok: bool)
    ensures ok <==> WindowsOk(h, facts)
  {
    for n := 0 to |facts|
      invariant forall i :: 0 <= i < n ==> InWindow(h, facts[i])
    {
      if !InWindow(h, facts[n]) { return false; }
    }
    return true;
  }

  /** BuildDraftInvoice. The closing validation is the `assert false`: it never fails. */
  method BuildDraftInvoice(h: Header, facts: seq<Fact>, rates: seq<PricingRate>) returns (r: Result<Invoice>)
    ensures r.Ok? <==> Buildable(h, facts, rates)
    ensures r.Ok? ==> DraftOf(h, facts, rates, r.value)
  {
    hide WindowsOk;
    hide RatesOk;
    hide CardComplete;
    hide ValidOtaFact;
    hide Aggregable;
    hide Payable;
    hide IsDraft;
    if Blank(h.organization) || Blank(h.pricingVersion) || !h.settleable || h.until <= h.from {
      return Err(InvalidInvoice);
    }
    if !h.draft { return Err(InvoiceIssued); }
    if !HeaderOk(h) { return Err(InvalidInvoice); }
    hide HeaderOk;
    var ratesOk, index := IndexRates(h.pricingVersion, rates);
    if !ratesOk { return Err(InvalidInvoice); }
    var windowsOk := CheckWindows(h, facts);
    if !windowsOk { return Err(InvalidInvoice); }
    var billable := BillableUsageFacts(facts, Terms(rates));
    if billable.Err? { return Err(billable.error); }
    var agg := AggregateFacts(billable.value, index.Keys);
    if agg.Err? { return Err(agg.error); }
    var book := Book(index, agg.value);
    assert IsBook(book, facts, rates);
    assert Rated(book) by { AggregableRates(billable.value, index.Keys); BookRated(book, facts, rates); }
    var draft := Assemble(h, book);
    assert Payable(h, book) <==> Buildable(h, facts, rates) by {
      forall b | IsBook(b, facts, rates) ensures b == book { BookUnique(b, book, facts, rates); }
    }
    if draft.Err? { return draft; }
    DraftReconciles(h, book, draft.value);
    var mismatch := ValidateInvoiceTotals(draft.value);
    if mismatch.Some? {
      assert false;
    }
    return draft;
  }

  lemma AggregableRates(facts: seq<Fact>, rated: set<Identity>)
    requires Aggregable(facts, rated)
    ensures AllRateable(facts, rated)
  { }

  // ---------------------------------------------------------------- order and uniqueness

  /** Whether building succeeds, and what it yields, depend on the facts only as a multiset. */
  lemma OrderIrrelevant(h: Header, f: seq<Fact>, g: seq<Fact>, rates: seq<PricingRate>, inv: Invoice)
    requires multiset(f) == multiset(g)
    ensures Buildable(h, f, rates) ==> Buildable(h, g, rates)
    ensures DraftOf(h, f, rates, inv) ==> DraftOf(h, g, rates, inv)
  {
    hide Payable;
    hide IsDraft;
    hide RatesOk;
    hide HeaderOk;
    hide CardComplete;
    var ota := OtaEnabled(Terms(rates));
    BillablePermutes(f, g, ota);
    forall b ensures IsBook(b, f, rates) <==> IsBook(b, g, rates) {
      if IsBook(b, f, rates) { SumsPermute(b.agg, Billable(f, ota), Billable(g, ota)); }
      if IsBook(b, g, rates) { SumsPermute(b.agg, Billable(g, ota), Billable(f, ota)); }
    }
    hide IsBook;
    if InputsOk(h, f, rates) {
      AggregablePermutes(Billable(f, ota), Billable(g, ota), Ids(Terms(rates)));
      EachFact(h, f, g);
    }
  }

  lemma EachFact(h: Header, f: seq<Fact>, g: seq<Fact>)
    requires multiset(f) == multiset(g) && WindowsOk(h, f) && forall i :: 0 <= i < |f| ==> ValidOtaFact(f[i])
    ensures WindowsOk(h, g) && forall i :: 0 <= i < |g| ==> ValidOtaFact(g[i])
  {
    hide ValidOtaFact;
    forall i | 0 <= i < |g| ensures InWindow(h, g[i]) && ValidOtaFact(g[i]) {
      var j := SameMembers(g, f, i);
    }
  }

  /** There is one draft for given facts and rates, so permuted facts give the same invoice. */
  lemma DraftUnique(h: Header, facts: seq<Fact>, rates: seq<PricingRate>, a: Invoice, c: Invoice)
    requires DraftOf(h, facts, rates, a) && DraftOf(h, facts, rates, c)
    ensures a == c
  {
    hide IsBook;
    hide IsDraft;
    var p :| IsBook(p, facts, rates) && IsDraft(h, p, a);
    var q :| IsBook(q, facts, rates) && IsDraft(h, q, c);
    BookUnique(p, q, facts, rates);
    SameDraft(h, p, a, c);
  }

  lemma SameDraft(h: Header, b: Book, a: Invoice, c: Invoice)
    requires IsDraft(h, b, a) && IsDraft(h, b, c)
    ensures a == c
  {
    hide LineKeys;
    hide AllPriced;
    var base := Base(b, a.header.mode);
    hide Base;
    SameTaxes(a.header, base, AmountsOf(a.lines), AmountsOf(c.lines), a.tax, c.tax);
    forall i | 0 <= i < |a.lines| ensures a.lines[i] == c.lines[i] {
      assert AmountsOf(a.lines)[i] == AmountsOf(c.lines)[i];
    }
    assert a.lines == c.lines;
  }

  lemma SameTaxes(h: Header, base: seq<Amounts>, a: seq<Amounts>, c: seq<Amounts>, tax: int, tax': int)
    requires TaxesFor(h, base, a, tax) && TaxesFor(h, base, c, tax')
    ensures a == c && tax == tax'
  {
    hide LargestRemainder;
    if h.mode.TotalMode? {
      var s := Subtotals(base);
      LargestRemainderUnique(Floors(s, h.taxRate.value), Remainders(s, h.taxRate.value), tax, Taxes(a), Taxes(c));
      forall i | 0 <= i < |a| ensures a[i] == c[i] {
        assert Subtotals(a)[i] == Subtotals(c)[i] && Taxes(a)[i] == Taxes(c)[i];
      }
    }
  }

  /** Each line of a draft bills exactly the sum of the billable facts of its key. */
  lemma LinesBillTheirFacts(h: Header, facts: seq<Fact>, rates: seq<PricingRate>, inv: Invoice, i: nat)
    requires DraftOf(h, facts, rates, inv) && i < |inv.lines|
    ensures var billable := Billable(facts, OtaEnabled(Terms(rates))); var line := inv.lines[i];
            line.quantity == Quantity(billable, line.key) && line.refs == Refs(billable, line.key)
              && Mentions(billable, line.key)
  {
    hide Payable;
    hide LineKeys;
    var b :| IsBook(b, facts, rates) && IsDraft(h, b, inv);
    assert inv.lines[i].key in b.agg;
  }

  lemma KeyOnce(keys: seq<Key>, i: nat, j: nat)
    requires Ascending(keys) && i < |keys| && j < |keys| && keys[i] == keys[j]
    ensures i == j
  {
    hide KeyLess;
    KeyTotal(keys[i], keys[j]);
  }

  lemma OneLinePerKey(b: Book, lines: seq<Line>, k: Key) returns (i: nat)
    requires Rated(b) && LinesFor(b, lines) && k in b.agg
    ensures i < |lines| && lines[i].key == k
    ensures forall j :: 0 <= j < |lines| && lines[j].key == k ==> j == i
  {
    hide LineKeys;
    hide Ascending;
    var keys := LineKeys(b.agg.Keys);
    assert k in Elements(keys);
    i :| 0 <= i < |keys| && keys[i] == k;
    forall j | 0 <= j < |lines| && lines[j].key == k ensures j == i {
      KeyOnce(keys, i, j);
    }
  }

  /** And every key that a billable fact mentions has exactly one line. */
  lemma EveryFactIsBilled(h: Header, facts: seq<Fact>, rates: seq<PricingRate>, inv: Invoice, k: Key) returns (i: nat)
    requires DraftOf(h, facts, rates, inv) && Mentions(Billable(facts, OtaEnabled(Terms(rates))), k)
    ensures i < |inv.lines| && inv.lines[i].key == k
    ensures forall j :: 0 <= j < |inv.lines| && inv.lines[j].key == k ==> j == i
  {
    hide LinesFor;
    hide TaxesFor;
    hide LineKeys;
    hide Mentions;
    hide HeaderOk;
    hide TotalTaxFits;
    hide IndexOf;
    var b :| IsBook(b, facts, rates) && IsDraft(h, b, inv);
    i := OneLinePerKey(b, inv.lines, k);
  }

  // ---------------------------------------------------------------- what a line says

  /** The line has the rate's terms, and the price of its quantity under them. */
  ghost predicate LineSays(line: Line, rate: PricingRate, mode: TaxMode) {
    && line.rateId == rate.id && line.description == rate.terms.description
    && line.unitPrice == rate.terms.unitPriceMinor && line.unitPriceScale == rate.terms.unitPriceScale
    && line.rounding == rate.terms.roundingMode
    && (if mode.TotalMode? then
          PriceSubtotal(rate.terms, line.quantity, line.scale) == Ok(line.amounts.subtotal)
        else
          PriceUsage(rate.terms, line.quantity, line.scale)
          == Ok(Price(line.amounts.subtotal, line.amounts.tax, line.amounts.total)))
  }

  /** All facts of the key are at this scale. */
  ghost predicate ScaleIs(facts: seq<Fact>, k: Key, scale: int) {
    forall j :: 0 <= j < |facts| && KeyOf(facts[j]) == k ==> facts[j].scale == scale
  }

  /** Every line is billed under the one rate of its key, with its terms, at the scale of its facts. */
  lemma LinesSayTheirRates(
    h: Header, facts: seq<Fact>, rates: seq<PricingRate>, inv: Invoice, i: nat) returns (r: nat)
    requires DraftOf(h, facts, rates, inv) && i < |inv.lines|
    ensures r < |rates| && IdOf(rates[r].terms) == RateId(inv.lines[i].key)
    ensures LineSays(inv.lines[i], rates[r], inv.header.mode)
    ensures ScaleIs(Billable(facts, OtaEnabled(Terms(rates))), inv.lines[i].key, inv.lines[i].scale)
  {
    hide LineKeys;
    var b :| IsBook(b, facts, rates) && IsDraft(h, b, inv);
    hide IsBook;
    var k := inv.lines[i].key;
    BilledLine(h, b, inv, i);
    hide IsDraft;
    r := RateOfKey(b, facts, rates, k);
    ScaleOfKey(b, facts, rates, k);
  }

  /** Line i is its key's, with the aggregate's quantity and scale, the indexed rate's terms and its price. */
  lemma BilledLine(h: Header, b: Book, inv: Invoice, i: nat)
    requires IsDraft(h, b, inv) && i < |inv.lines|
    ensures Rated(b)
    ensures var line := inv.lines[i];
            && line.key in b.agg && line.scale == b.agg[line.key].scale
            && LineSays(line, b.index[RateId(line.key)], inv.header.mode)
  {
    hide LineKeys;
    hide LargestRemainder;
    var mode := inv.header.mode;
    var base := Base(b, mode);
    var line := inv.lines[i];
    assert AmountsOf(inv.lines)[i] == line.amounts;
    assert Priced(b, mode, line.key) == Ok(base[i]);
    if mode.TotalMode? {
      assert Subtotals(AmountsOf(inv.lines))[i] == Subtotals(base)[i];
    }
    hide Base;
  }

  lemma RateOfKey(b: Book, facts: seq<Fact>, rates: seq<PricingRate>, k: Key) returns (r: nat)
    requires IsBook(b, facts, rates) && RateId(k) in b.index
    ensures r < |rates| && b.index[RateId(k)] == rates[r] && IdOf(rates[r].terms) == RateId(k)
  {
    hide Sums;
    var terms := Terms(rates);
    assert RateId(k) in Ids(terms);
    r :| 0 <= r < |terms| && IdOf(terms[r]) == RateId(k);
  }

  lemma ScaleOfKey(b: Book, facts: seq<Fact>, rates: seq<PricingRate>, k: Key)
    requires IsBook(b, facts, rates) && k in b.agg
    ensures ScaleIs(Billable(facts, OtaEnabled(Terms(rates))), k, b.agg[k].scale)
  {
    hide IndexOf;
    hide Quantity;
    hide Refs;
    hide Mentions;
  }

  /** The totals of a draft are the sums of its lines, and the tax on the total is the exactly rounded share. */
  lemma DraftAddsUp(h: Header, facts: seq<Fact>, rates: seq<PricingRate>, inv: Invoice)
    requires DraftOf(h, facts, rates, inv)
    ensures inv.subtotal == Sum(Subtotals(AmountsOf(inv.lines))) && inv.tax == Sum(Taxes(AmountsOf(inv.lines)))
    ensures inv.total == inv.subtotal + inv.tax == inv.due && inv.settled == 0 && 0 <= inv.total <= MAX_INT64
    ensures inv.header.mode.TotalMode? ==>
              && h.taxRate.Some? && h.rounding.Some?
              && RoundsTo(inv.subtotal * h.taxRate.value, 10000, h.rounding.value, inv.tax)
  {
    var b :| IsBook(b, facts, rates) && IsDraft(h, b, inv);
    DraftReconciles(h, b, inv);
    hide IsBook;
    hide LineKeys;
    hide AllPriced;
    hide LinesFor;
    SubtotalNonNegative(AmountsOf(inv.lines));
    if inv.header.mode.TotalMode? {
      NonNegative(inv.subtotal, h.taxRate.value);
      RoundedInt64IsExact(inv.subtotal * h.taxRate.value, 10000, h.rounding.value, inv.tax);
    }
    hide Base;
    hide RoundsTo;
    hide RoundedInt64;
  }

  lemma SubtotalNonNegative(amounts: seq<Amounts>)
    ensures (forall i :: 0 <= i < |amounts| ==> LineReconciles(amounts[i])) ==>
              Sum(Subtotals(amounts)) >= 0 && Sum(Taxes(amounts)) >= 0
  {
    if forall i :: 0 <= i < |amounts| ==> LineReconciles(amounts[i]) {
      SumPrefix(Subtotals(amounts), 0);
      SumPrefix(Taxes(amounts), 0);
    }
  }

  // ---------------------------------------------------------------- what the inputs must be

  /** A header, a fact and a rate list are accepted exactly as follows. */
  lemma InputsMean(h: Header, f: Fact, rates: seq<PricingRate>)
    ensures HeaderOk(h) <==>
            && !Blank(h.organization) && !Blank(h.pricingVersion) && h.settleable && h.from < h.until && h.draft
            && (if h.mode.TotalMode? then
                  && h.taxRate.Some? && 0 <= h.taxRate.value <= 10000 && !Blank(h.category)
                  && (h.rounding == Some(HalfUp) || h.rounding == Some(Down) || h.rounding == Some(Up))
                else
                  && (h.mode.LineMode? || h.mode.UnsetMode?)
                  && h.taxRate.None? && h.rounding.None? && h.category == "")
    ensures InWindow(h, f) <==>
            f.organization == h.organization && h.from <= f.from < f.until <= h.until
    ensures RatesOk(h.pricingVersion, rates) <==>
            && (forall i :: 0 <= i < |rates| ==> rates[i].version in {"", h.pricingVersion})
            && (forall i, j :: 0 <= i < j < |rates| ==> IdOf(rates[i].terms) != IdOf(rates[j].terms))
  {
    var terms := Terms(rates);
    assert DistinctIds(terms) <==>
           forall i, j :: 0 <= i < j < |rates| ==> IdOf(rates[i].terms) != IdOf(rates[j].terms) by {
      assert forall i :: 0 <= i < |rates| ==> terms[i] == rates[i].terms;
    }
    hide IdOf;
    hide DistinctIds;
  }
}
