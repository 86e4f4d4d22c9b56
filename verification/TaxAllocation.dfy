/** Largest-remainder allocation of invoice-level tax over the lines of an invoice. */
module TaxAllocation {
  import opened Common
  import opened Money

  function Sum(s: seq<int>): int {
    if |s| == 0 then 0 else Sum(s[..|s| - 1]) + s[|s| - 1]
  }

  lemma SumStep(s: seq<int>, i: nat)
    requires i < |s|
    ensures Sum(s[..i + 1]) == Sum(s[..i]) + s[i]
  {
    assert s[..i + 1][..i] == s[..i];
  }

  lemma {:induction false} SumUpdate(s: seq<int>, i: nat, v: int)
    requires i < |s|
    ensures Sum(s[i := v]) == Sum(s) - s[i] + v
  {
    var n := |s| - 1;
    if i < n {
      SumUpdate(s[..n], i, v);
      assert s[i := v][..n] == s[..n][i := v];
    } else {
      assert s[i := v][..n] == s[..n];
    }
  }

  lemma {:induction false} SumOrdered(a: seq<int>, b: seq<int>)
    requires |a| == |b| && forall i :: 0 <= i < |a| ==> a[i] <= b[i]
    ensures Sum(a) <= Sum(b)
    ensures Sum(a) == Sum(b) ==> a == b
  {
    if |a| > 0 {
      var n := |a| - 1;
      SumOrdered(a[..n], b[..n]);
      assert a == a[..n] + [a[n]] && b == b[..n] + [b[n]];
    }
  }

  /** The first i of nonnegative terms never exceed their total, and neither does any one term. */
  lemma {:induction false} SumPrefix(s: seq<int>, i: nat)
    requires i <= |s| && forall j :: 0 <= j < |s| ==> s[j] >= 0
    ensures 0 <= Sum(s[..i]) <= Sum(s)
    ensures i < |s| ==> s[i] <= Sum(s)
  {
    if |s| > 0 {
      var n := |s| - 1;
      if i < n {
        SumPrefix(s[..n], i);
        assert s[..n][..i] == s[..i];
      } else {
        SumPrefix(s[..n], n);
        assert s[..n][..n] == s[..n];
        assert s[..|s|] == s;
      }
    }
  }

  /** The monetary columns of an invoice line. */
  datatype Amounts = Amounts(subtotal: int, tax: int, total: int)

  function Subtotals(lines: seq<Amounts>): (r: seq<int>)
    ensures |r| == |lines| && forall i :: 0 <= i < |r| ==> r[i] == lines[i].subtotal
  {
    seq(|lines|, i requires 0 <= i < |lines| => lines[i].subtotal)
  }

  function Taxes(lines: seq<Amounts>): (r: seq<int>)
    ensures |r| == |lines| && forall i :: 0 <= i < |r| ==> r[i] == lines[i].tax
  {
    seq(|lines|, i requires 0 <= i < |lines| => lines[i].tax)
  }

  /** A line's exact share subtotal * rate / 10000, split into its whole units ... */
  function FloorShare(subtotal: int, rate: int): int {
    subtotal * rate / 10000
  }

  /** ... and what is left of it, in 1/10000 units. */
  function LeftOver(subtotal: int, rate: int): int {
    subtotal * rate % 10000
  }

  function Floors(subtotals: seq<int>, rate: int): (r: seq<int>)
    ensures |r| == |subtotals|
    ensures forall i :: 0 <= i < |r| ==> r[i] == FloorShare(subtotals[i], rate)
  {
    seq(|subtotals|, i requires 0 <= i < |subtotals| => FloorShare(subtotals[i], rate))
  }

  function Remainders(subtotals: seq<int>, rate: int): (r: seq<int>)
    ensures |r| == |subtotals|
    ensures forall i :: 0 <= i < |r| ==> r[i] == LeftOver(subtotals[i], rate)
  {
    seq(|subtotals|, i requires 0 <= i < |subtotals| => LeftOver(subtotals[i], rate))
  }

  /** The published allocation rule, independent of how it is computed: the whole tax is given out, a line
      gets its floor or, only if its share is not whole, the unit above, and a line with an extra unit has
      the stronger claim (larger remainder, then earlier line) than any line without one. */
  ghost predicate LargestRemainder(floors: seq<int>, rems: seq<int>, tax: int, taxes: seq<int>) {
    && |taxes| == |floors| == |rems|
    && Sum(taxes) == tax
    && (forall i :: 0 <= i < |taxes| ==> taxes[i] == floors[i] || (taxes[i] == floors[i] + 1 && rems[i] > 0))
    && (forall i, j :: 0 <= i < |taxes| && 0 <= j < |taxes| && taxes[i] > floors[i] && taxes[j] == floors[j]
          ==> rems[i] > rems[j] || (rems[i] == rems[j] && i < j))
  }

  /** The rule leaves no freedom: it names exactly one allocation. */
  lemma LargestRemainderUnique(floors: seq<int>, rems: seq<int>, tax: int, a: seq<int>, b: seq<int>)
    requires LargestRemainder(floors, rems, tax, a)
    requires LargestRemainder(floors, rems, tax, b)
    ensures a == b
  {
    if forall i :: 0 <= i < |a| ==> a[i] <= b[i] {
      SumOrdered(a, b);
    } else if forall i :: 0 <= i < |a| ==> b[i] <= a[i] {
      SumOrdered(b, a);
    } else {
      assert false;
    }
  }

  datatype Share = Share(index: int, remainder: int)

  predicate Before(x: Share, y: Share) {
    x.remainder > y.remainder || (x.remainder == y.remainder && x.index < y.index)
  }

  ghost predicate Ranked(s: seq<Share>) {
    forall p, q :: 0 <= p < q < |s| ==> Before(s[p], s[q])
  }

  function Claims(s: seq<Share>): (r: seq<int>)
    ensures |r| == |s| && forall i :: 0 <= i < |r| ==> r[i] == s[i].remainder
  {
    seq(|s|, i requires 0 <= i < |s| => s[i].remainder)
  }

  /** Stable insertion from the right: x goes past every strictly smaller remainder. */
  function InsertShare(s: seq<Share>, x: Share): (r: seq<Share>)
    ensures |r| == |s| + 1
    ensures forall y :: y in r <==> y in s || y == x
  {
    if |s| == 0 || s[|s| - 1].remainder >= x.remainder then s + [x]
    else InsertShare(s[..|s| - 1], x) + [s[|s| - 1]]
  }

  /** The stable descending sort by remainder. */
  function SortShares(s: seq<Share>): (r: seq<Share>)
    ensures |r| == |s|
    ensures forall y :: y in r <==> y in s
  {
    if |s| == 0 then [] else InsertShare(SortShares(s[..|s| - 1]), s[|s| - 1])
  }

  lemma {:induction false} InsertKeepsRanked(s: seq<Share>, x: Share)
    requires Ranked(s) && forall p :: 0 <= p < |s| ==> s[p].index < x.index
    ensures Ranked(InsertShare(s, x))
    ensures Sum(Claims(InsertShare(s, x))) == Sum(Claims(s)) + x.remainder
  {
    var r := InsertShare(s, x);
    var n := |s|;
    if n == 0 || s[n - 1].remainder >= x.remainder {
      assert Claims(r)[..n] == Claims(s);
    } else {
      var front := s[..n - 1];
      InsertKeepsRanked(front, x);
      var inner := InsertShare(front, x);
      assert r == inner + [s[n - 1]];
      assert Claims(r)[..n] == Claims(inner);
      assert Claims(s)[..n - 1] == Claims(front);
      forall p | 0 <= p < |inner| ensures Before(inner[p], s[n - 1]) {
        assert inner[p] in front || inner[p] == x;
      }
    }
  }

  lemma {:induction false} SortSharesRanks(s: seq<Share>)
    requires forall p :: 0 <= p < |s| ==> s[p].index == p
    ensures Ranked(SortShares(s))
    ensures Sum(Claims(SortShares(s))) == Sum(Claims(s))
  {
    if |s| > 0 {
      var n := |s| - 1;
      SortSharesRanks(s[..n]);
      var front := SortShares(s[..n]);
      forall p | 0 <= p < |front| ensures front[p].index < n {
        assert front[p] in s[..n];
      }
      InsertKeepsRanked(front, s[n]);
      assert Claims(s)[..n] == Claims(s[..n]);
    }
  }

  /** Remainders below 10000 that vanish from position p on sum to at most 9999 p. */
  lemma {:induction false} RemainderBudget(r: seq<int>, p: nat)
    requires p <= |r| && forall i :: 0 <= i < |r| ==> 0 <= r[i] <= 9999
    requires forall i :: p <= i < |r| ==> r[i] == 0
    ensures 0 <= Sum(r) <= 9999 * p
  {
    if |r| > 0 {
      var n := |r| - 1;
      RemainderBudget(r[..n], if p <= n then p else n);
    }
  }

  /** subtotal * rate splits into 10000 times the floors plus the remainders. */
  lemma {:induction false} SharesSplit(subtotals: seq<int>, rate: int)
    ensures Sum(subtotals) * rate == 10000 * Sum(Floors(subtotals, rate)) + Sum(Remainders(subtotals, rate))
  {
    if |subtotals| > 0 {
      var n := |subtotals| - 1;
      SharesSplit(subtotals[..n], rate);
      assert Floors(subtotals, rate)[..n] == Floors(subtotals[..n], rate);
      assert Remainders(subtotals, rate)[..n] == Remainders(subtotals[..n], rate);
      assert Sum(subtotals) * rate == Sum(subtotals[..n]) * rate + subtotals[n] * rate;
    }
  }

  /** In every mode the rounded value lies strictly within one unit of the exact quotient. */
  lemma RoundedWithinOne(n: int, mode: RoundingMode, q: int)
    requires n >= 0 && RoundedInt64(n, 10000, mode) == Ok(q)
    ensures n - 10000 < 10000 * q < n + 10000
  {
    RoundedInt64IsExact(n, 10000, mode, q);
  }

  ghost predicate SharesOf(shares: seq<Share>, rems: seq<int>) {
    |shares| == |rems| && forall i :: 0 <= i < |shares| ==> shares[i] == Share(i, rems[i])
  }

  /** There are at most as many spare units as lines with a positive remainder. */
  lemma SpareUnits(shares: seq<Share>, rems: seq<int>, spare: int)
    requires SharesOf(shares, rems) && forall i :: 0 <= i < |rems| ==> 0 <= rems[i] <= 9999
    requires 10000 * spare < Sum(rems) + 10000
    ensures spare <= |shares|
    ensures forall p :: 0 <= p < spare ==> SortShares(shares)[p].remainder > 0
  {
    var ranked := SortShares(shares);
    SortSharesRanks(shares);
    assert Claims(shares) == rems;
    var claims := Claims(ranked);
    forall p | 0 <= p < |claims| ensures 0 <= claims[p] <= 9999 {
      assert ranked[p] in shares;
    }
    RemainderBudget(claims, |claims|);
    forall p | 0 <= p < spare ensures ranked[p].remainder > 0 {
      if ranked[p].remainder == 0 {
        forall q | p <= q < |claims| ensures claims[q] == 0 {
          if p < q { assert Before(ranked[p], ranked[q]); }
        }
        RemainderBudget(claims, p);
      }
    }
  }

  lemma SharesInRange(subtotals: seq<int>, rate: int)
    requires 0 <= rate && forall i :: 0 <= i < |subtotals| ==> subtotals[i] >= 0
    ensures forall i :: 0 <= i < |subtotals| ==> Floors(subtotals, rate)[i] >= 0
    ensures forall i :: 0 <= i < |subtotals| ==> 0 <= Remainders(subtotals, rate)[i] <= 9999
    ensures 0 <= Sum(subtotals) * rate
  {
    forall i | 0 <= i < |subtotals| ensures FloorShare(subtotals[i], rate) >= 0 {
      assert subtotals[i] * rate >= 0;
    }
    SumPrefix(subtotals, 0);
  }

  /** Floors never overrun the rounded tax, and the gap is within the remainders' budget. */
  lemma SpareBounds(subtotals: seq<int>, rate: int, mode: RoundingMode, tax: int, floors: seq<int>, rems: seq<int>)
    requires 0 <= rate && forall i :: 0 <= i < |subtotals| ==> subtotals[i] >= 0
    requires RoundedInt64(Sum(subtotals) * rate, 10000, mode) == Ok(tax)
    requires floors == Floors(subtotals, rate) && rems == Remainders(subtotals, rate)
    ensures 0 <= tax - Sum(floors)
    ensures 10000 * (tax - Sum(floors)) < Sum(rems) + 10000
  {
    SharesInRange(subtotals, rate);
    SharesSplit(subtotals, rate);
    RoundedWithinOne(Sum(subtotals) * rate, mode, tax);
    RemainderBudget(rems, |rems|);
  }

  function Winners(ranked: seq<Share>, k: nat): set<int>
    requires k <= |ranked|
  {
    set p | 0 <= p < k :: ranked[p].index
  }

  lemma NextWinner(ranked: seq<Share>, shares: seq<Share>, rems: seq<int>, k: nat)
    requires Ranked(ranked) && SharesOf(shares, rems) && k < |ranked|
    requires forall p :: 0 <= p < |ranked| ==> ranked[p] in shares
    ensures ranked[k].index !in Winners(ranked, k)
    ensures Winners(ranked, k + 1) == Winners(ranked, k) + {ranked[k].index}
  {
    forall p | 0 <= p < k ensures ranked[p].index != ranked[k].index {
      assert Before(ranked[p], ranked[k]);
      assert ranked[p] in shares && ranked[k] in shares;
    }
  }

  lemma Allocation(
    floors: seq<int>, rems: seq<int>, taxes: seq<int>, shares: seq<Share>, ranked: seq<Share>, spare: nat)
    requires SharesOf(shares, rems) && |taxes| == |floors| == |rems| == |ranked| && spare <= |ranked|
    requires Ranked(ranked) && forall y :: y in ranked <==> y in shares
    requires forall p :: 0 <= p < spare ==> ranked[p].remainder > 0
    requires forall i :: 0 <= i < |taxes| ==> taxes[i] == floors[i] + if i in Winners(ranked, spare) then 1 else 0
    ensures LargestRemainder(floors, rems, Sum(taxes), taxes)
  {
    forall i | 0 <= i < |taxes| && i in Winners(ranked, spare) ensures rems[i] > 0 {
      var p :| 0 <= p < spare && ranked[p].index == i;
      assert ranked[p] in shares;
    }
    forall i, j | 0 <= i < |taxes| && 0 <= j < |taxes| && taxes[i] > floors[i] && taxes[j] == floors[j]
      ensures rems[i] > rems[j] || (rems[i] == rems[j] && i < j)
    {
      var p :| 0 <= p < spare && ranked[p].index == i;
      assert ranked[p] in shares;
      assert shares[j] in ranked;
      var q :| 0 <= q < |ranked| && ranked[q] == shares[j];
      assert Before(ranked[p], ranked[q]);
    }
  }

  datatype Totals = Totals(tax: int, total: int)

  /** First pass: every line gets its floor. The overflow exit of the source is the `assert false`. */
  method GiveFloors(lines: array<Amounts>, rate: int, tax: int) returns (given: int, shares: seq<Share>)
    requires forall i :: 0 <= i < lines.Length ==> Floors(Subtotals(lines[..]), rate)[i] >= 0
    requires Sum(Floors(Subtotals(lines[..]), rate)) <= tax
    modifies lines
    ensures given == Sum(Floors(old(Subtotals(lines[..])), rate))
    ensures SharesOf(shares, Remainders(old(Subtotals(lines[..])), rate))
    ensures Subtotals(lines[..]) == old(Subtotals(lines[..]))
    ensures Taxes(lines[..]) == Floors(old(Subtotals(lines[..])), rate)
  {
    ghost var subtotals := Subtotals(lines[..]);
    ghost var floors := Floors(subtotals, rate);
    shares, given := [], 0;
    for n := 0 to lines.Length
      invariant given == Sum(floors[..n])
      invariant |shares| == n
      invariant forall i :: 0 <= i < n ==> shares[i] == Share(i, LeftOver(subtotals[i], rate))
      invariant forall i :: 0 <= i < n ==> lines[i] == old(lines[i]).(tax := floors[i])
      invariant forall i :: n <= i < lines.Length ==> lines[i] == old(lines[i])
    {
      var part := lines[n].subtotal * rate;
      var quotient, remainder := part / 10000, part % 10000;
      SumStep(floors, n);
      SumPrefix(floors, n + 1);
      if quotient > tax - given {
        assert false;
      }
      lines[n] := lines[n].(tax := quotient);
      given := given + quotient;
      shares := shares + [Share(n, remainder)];
    }
    assert floors[..lines.Length] == floors;
  }

  /** Second pass: one unit to each of the `remaining` best-ranked lines. */
  method GiveSpare(lines: array<Amounts>, shares: seq<Share>, ghost rems: seq<int>, remaining: nat)
    requires SharesOf(shares, rems) && |shares| == lines.Length && remaining <= |shares|
    requires forall p :: 0 <= p < remaining ==> SortShares(shares)[p].remainder > 0
    modifies lines
    ensures Sum(Taxes(lines[..])) == old(Sum(Taxes(lines[..]))) + remaining
    ensures LargestRemainder(old(Taxes(lines[..])), rems, Sum(Taxes(lines[..])), Taxes(lines[..]))
    ensures Subtotals(lines[..]) == old(Subtotals(lines[..]))
  {
    ghost var base := lines[..];
    var ranked := SortShares(shares);
    SortSharesRanks(shares);
    RaiseBest(lines, ranked, shares, rems, remaining);
    HandedAmounts(base, lines[..], Winners(ranked, remaining), remaining);
    Allocation(Taxes(base), rems, Taxes(lines[..]), shares, ranked, remaining);
  }

  method RaiseBest(
    lines: array<Amounts>, ranked: seq<Share>, ghost shares: seq<Share>, ghost rems: seq<int>, remaining: nat)
    requires SharesOf(shares, rems) && Ranked(ranked) && |ranked| == |shares| == lines.Length && remaining <= |ranked|
    requires forall p :: 0 <= p < |ranked| ==> ranked[p] in shares
    modifies lines
    ensures Handed(old(lines[..]), lines[..], Winners(ranked, remaining), remaining)
  {
    ghost var base := lines[..];
    for k := 0 to remaining
      invariant Handed(base, lines[..], Winners(ranked, k), k)
    {
      var i := ranked[k].index;
      assert ranked[k] in shares;
      NextWinner(ranked, shares, rems, k);
      ghost var before := lines[..];
      lines[i] := lines[i].(tax := lines[i].tax + 1);
      assert lines[..] == before[i := before[i].(tax := before[i].tax + 1)];
      HandOne(base, before, Winners(ranked, k), k, i);
    }
  }

  /** k lines, those in w, carry one unit more than in base; nothing else differs. */
  ghost predicate Handed(base: seq<Amounts>, now: seq<Amounts>, w: set<int>, k: int) {
    && |now| == |base|
    && (forall i :: 0 <= i < |base| ==> now[i] == base[i].(tax := base[i].tax + if i in w then 1 else 0))
    && Sum(Taxes(now)) == Sum(Taxes(base)) + k
  }

  lemma HandOne(base: seq<Amounts>, now: seq<Amounts>, w: set<int>, k: int, i: nat)
    requires Handed(base, now, w, k) && i < |base| && i !in w
    ensures Handed(base, now[i := now[i].(tax := now[i].tax + 1)], w + {i}, k + 1)
  {
    var after := now[i := now[i].(tax := now[i].tax + 1)];
    assert Taxes(after) == Taxes(now)[i := Taxes(now)[i] + 1];
    SumUpdate(Taxes(now), i, Taxes(now)[i] + 1);
  }

  lemma HandedAmounts(base: seq<Amounts>, now: seq<Amounts>, w: set<int>, k: int)
    requires Handed(base, now, w, k)
    ensures Subtotals(now) == Subtotals(base)
    ensures forall i :: 0 <= i < |base| ==> Taxes(now)[i] == Taxes(base)[i] + if i in w then 1 else 0
  {
  }

  /** Adds tax to the lines in place. Its error exits beyond rounding and the invoice total are unreachable. */
  method AllocateInvoiceTax(lines: array<Amounts>, subtotal: int, rate: int, mode: RoundingMode)
    returns (r: Result<Totals>)
    requires 0 <= rate <= 10000
    requires forall i :: 0 <= i < lines.Length ==> lines[i].subtotal >= 0
    requires Sum(Subtotals(lines[..])) == subtotal
    modifies lines
    ensures Subtotals(lines[..]) == old(Subtotals(lines[..]))
    ensures var rounded := RoundedInt64(subtotal * rate, 10000, mode);
            r == if rounded.Err? then Err(rounded.error)
                 else if !IsInt64(subtotal + rounded.value) then Err(Overflow)
                 else Ok(Totals(rounded.value, subtotal + rounded.value))
    ensures r.Ok? ==>
              LargestRemainder(Floors(Subtotals(lines[..]), rate), Remainders(Subtotals(lines[..]), rate),
                               r.value.tax, Taxes(lines[..]))
    ensures r.Ok? ==>
              forall i :: 0 <= i < lines.Length ==> LineAdds(lines[i]) && lines[i].total <= r.value.total
  {
    var rounded := RoundedInt64(subtotal * rate, 10000, mode);
    if rounded.Err? { return Err(rounded.error); }
    var tax := rounded.value;
    if !IsInt64(subtotal + tax) { return Err(Overflow); }
    ghost var subtotals := Subtotals(lines[..]);
    ghost var floors, rems := Floors(subtotals, rate), Remainders(subtotals, rate);
    SharesInRange(subtotals, rate);
    SpareBounds(subtotals, rate, mode, tax, floors, rems);
    var given, shares := GiveFloors(lines, rate, tax);
    var remaining := tax - given;
    SpareUnits(shares, rems, remaining);
    if remaining < 0 || remaining > |shares| {
      assert false;
    }
    GiveSpare(lines, shares, rems, remaining);
    ghost var taxed := lines[..];
    FillTotals(lines, subtotal, tax);
    assert Subtotals(lines[..]) == Subtotals(taxed) && Taxes(lines[..]) == Taxes(taxed);
    return Ok(Totals(tax, subtotal + tax));
  }

  predicate LineAdds(line: Amounts) {
    0 <= line.tax && line.total == line.subtotal + line.tax
  }

  /** Third pass: line totals. No line can overflow when the invoice total does not. */
  method FillTotals(lines: array<Amounts>, subtotal: int, tax: int)
    requires IsInt64(subtotal + tax)
    requires Sum(Subtotals(lines[..])) == subtotal && Sum(Taxes(lines[..])) == tax
    requires forall i :: 0 <= i < lines.Length ==> lines[i].subtotal >= 0 && lines[i].tax >= 0
    modifies lines
    ensures forall i :: 0 <= i < lines.Length ==>
              lines[i].subtotal == old(lines[i].subtotal) && lines[i].tax == old(lines[i].tax)
    ensures forall i :: 0 <= i < lines.Length ==> LineAdds(lines[i]) && lines[i].total <= subtotal + tax
  {
    ghost var base := lines[..];
    for t := 0 to lines.Length
      invariant forall i :: 0 <= i < lines.Length ==>
                  lines[i].subtotal == base[i].subtotal && lines[i].tax == base[i].tax
      invariant forall i :: 0 <= i < t ==> LineAdds(lines[i]) && lines[i].total <= subtotal + tax
    {
      LineFits(base, t);
      var lineTotal := lines[t].subtotal + lines[t].tax;
      if !IsInt64(lineTotal) {
        assert false;
      }
      lines[t] := lines[t].(total := lineTotal);
    }
  }

  lemma LineFits(lines: seq<Amounts>, t: nat)
    requires t < |lines| && forall i :: 0 <= i < |lines| ==> lines[i].subtotal >= 0 && lines[i].tax >= 0
    ensures 0 <= lines[t].subtotal + lines[t].tax <= Sum(Subtotals(lines)) + Sum(Taxes(lines))
  {
    SumPrefix(Subtotals(lines), t);
    SumPrefix(Taxes(lines), t);
  }
}
