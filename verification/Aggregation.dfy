/** Usage facts summed per rate and product, in the order invoice lines appear. Keys joined with NUL in the
    store are tuples here: no code, unit or product id contains NUL. */
module Aggregation {
  import opened Common
  import opened Money
  import opened OtaCard

  /** Times count nanoseconds from the zero time; `utcMonth` says the window is one whole UTC calendar month. */
  datatype Fact = Fact(
    usageId: string, organization: string, product: string, service: string, metric: string, unit: string,
    quantity: int, scale: int, from: int, until: int, utcMonth: bool)

  datatype Key = Key(service: string, metric: string, unit: string, product: string)

  function KeyOf(f: Fact): Key { Key(f.service, f.metric, f.unit, f.product) }

  function RateId(k: Key): Identity { (k.service, k.metric, k.unit) }

  // ---------------------------------------------------------------- line order

  predicate StrLess(a: string, b: string) {
    if |b| == 0 then false
    else if |a| == 0 then true
    else if a[0] != b[0] then a[0] < b[0]
    else StrLess(a[1..], b[1..])
  }

  lemma {:induction false} StrTotal(a: string, b: string)
    ensures a == b || StrLess(a, b) || StrLess(b, a)
    ensures !(StrLess(a, b) && StrLess(b, a)) && !StrLess(a, a)
  {
    if |a| > 0 && |b| > 0 && a[0] == b[0] {
      StrTotal(a[1..], b[1..]);
      assert a == [a[0]] + a[1..] && b == [b[0]] + b[1..];
    }
    if |a| > 0 && a != b { StrTotal(a[1..], a[1..]); }
    if |a| > 0 && a == b { assert StrLess(a, a) == StrLess(a[1..], a[1..]); StrTotal(a[1..], a[1..]); }
  }

  lemma {:induction false} StrTransitive(a: string, b: string, c: string)
    requires StrLess(a, b) && StrLess(b, c)
    ensures StrLess(a, c)
  {
    if |a| > 0 && a[0] == b[0] && b[0] == c[0] {
      StrTransitive(a[1..], b[1..], c[1..]);
    }
  }

  predicate KeyLess(a: Key, b: Key) {
    if a.service != b.service then StrLess(a.service, b.service)
    else if a.metric != b.metric then StrLess(a.metric, b.metric)
    else if a.unit != b.unit then StrLess(a.unit, b.unit)
    else StrLess(a.product, b.product)
  }

  lemma KeyTotal(a: Key, b: Key)
    ensures a == b || KeyLess(a, b) || KeyLess(b, a)
    ensures !(KeyLess(a, b) && KeyLess(b, a)) && !KeyLess(a, a)
  {
    hide StrLess;
    StrTotal(a.service, b.service);
    StrTotal(a.metric, b.metric);
    StrTotal(a.unit, b.unit);
    StrTotal(a.product, b.product);
  }

  lemma KeyTransitive(a: Key, b: Key, c: Key)
    requires KeyLess(a, b) && KeyLess(b, c)
    ensures KeyLess(a, c)
  {
    hide StrLess;
    if StrLess(a.service, b.service) && StrLess(b.service, c.service) {
      StrTransitive(a.service, b.service, c.service);
    }
    if StrLess(a.metric, b.metric) && StrLess(b.metric, c.metric) { StrTransitive(a.metric, b.metric, c.metric); }
    if StrLess(a.unit, b.unit) && StrLess(b.unit, c.unit) { StrTransitive(a.unit, b.unit, c.unit); }
    if StrLess(a.product, b.product) && StrLess(b.product, c.product) {
      StrTransitive(a.product, b.product, c.product);
    }
    StrTotal(a.service, b.service);
    StrTotal(b.service, c.service);
    StrTotal(a.service, c.service);
    StrTotal(a.metric, c.metric);
    StrTotal(a.metric, b.metric);
    StrTotal(a.unit, c.unit);
    StrTotal(a.unit, b.unit);
  }

  ghost predicate Ascending(s: seq<Key>) { forall i, j :: 0 <= i < j < |s| ==> KeyLess(s[i], s[j]) }

  function Elements(s: seq<Key>): set<Key> { set i | 0 <= i < |s| :: s[i] }

  /** Insertion into an ascending list; a key already there stays single. */
  function InsertKey(s: seq<Key>, k: Key): (r: seq<Key>)
    ensures Elements(r) == Elements(s) + {k}
  {
    if |s| == 0 then ElementsAppend(s, k); s + [k]
    else
      var n := |s| - 1;
      assert Elements(s) == Elements(s[..n]) + {s[n]};
      if s[n] == k then s
      else if KeyLess(s[n], k) then ElementsAppend(s, k); s + [k]
      else
        var inner := InsertKey(s[..n], k);
        ElementsAppend(inner, s[n]);
        inner + [s[n]]
  }

  lemma ElementsAppend(s: seq<Key>, k: Key)
    ensures Elements(s + [k]) == Elements(s) + {k}
  {
    var t := s + [k];
    assert t[|s|] == k;
    forall x | x in Elements(s) ensures x in Elements(t) {
      var i :| 0 <= i < |s| && s[i] == x;
      assert t[i] == x;
    }
  }

  lemma {:induction false} InsertAscends(s: seq<Key>, k: Key)
    requires Ascending(s)
    ensures Ascending(InsertKey(s, k))
  {
    hide KeyLess;
    if |s| > 0 {
      var n := |s| - 1;
      KeyTotal(s[n], k);
      var r := InsertKey(s, k);
      if s[n] != k {
        if KeyLess(s[n], k) {
          forall i | 0 <= i < n ensures KeyLess(s[i], k) { KeyTransitive(s[i], s[n], k); }
        } else {
          InsertAscends(s[..n], k);
          var inner := InsertKey(s[..n], k);
          forall i | 0 <= i < |inner| ensures KeyLess(inner[i], s[n]) {
            assert inner[i] in Elements(inner);
            assert Elements(inner) == Elements(s[..n]) + {k};
          }
        }
      }
    }
  }

  /** An ascending list is determined by its elements. */
  lemma {:induction false} AscendingUnique(a: seq<Key>, b: seq<Key>)
    requires Ascending(a) && Ascending(b) && Elements(a) == Elements(b)
    ensures a == b
  {
    hide KeyLess;
    SomeElement(a);
    SomeElement(b);
    if |a| > 0 {
      var m, n := |a| - 1, |b| - 1;
      LastIsGreatest(a, b[n]);
      LastIsGreatest(b, a[m]);
      KeyTotal(a[m], b[n]);
      assert a[m] == b[n];
      ElementsWithoutLast(a);
      ElementsWithoutLast(b);
      AscendingUnique(a[..m], b[..n]);
      assert a == a[..m] + [a[m]] && b == b[..n] + [b[n]];
    }
  }

  lemma SomeElement(s: seq<Key>)
    ensures |s| == 0 <==> Elements(s) == {}
  {
    assert |s| > 0 ==> s[|s| - 1] in Elements(s);
  }

  lemma LastIsGreatest(s: seq<Key>, k: Key)
    requires Ascending(s) && |s| > 0
    ensures s[|s| - 1] in Elements(s)
    ensures k in Elements(s) ==> k == s[|s| - 1] || KeyLess(k, s[|s| - 1])
  { }

  lemma ElementsWithoutLast(s: seq<Key>)
    requires Ascending(s) && |s| > 0
    ensures Elements(s[..|s| - 1]) == Elements(s) - {s[|s| - 1]}
  {
    hide KeyLess;
    var n := |s| - 1;
    forall i | 0 <= i < n ensures s[i] != s[n] { KeyTotal(s[i], s[n]); assert KeyLess(s[i], s[n]); }
    assert s == s[..n] + [s[n]];
    ElementsAppend(s[..n], s[n]);
    forall x | x in Elements(s[..n]) ensures x != s[n] { var i :| 0 <= i < n && s[..n][i] == x; assert s[i] == x; }
  }

  // ---------------------------------------------------------------- billable facts

  const MINUTE: int := 60_000_000_000

  predicate MinuteWindow(f: Fact) { f.from != 0 && f.from % MINUTE == 0 && f.until == f.from + MINUTE }

  predicate ValidOtaFact(f: Fact) {
    f.service != OTA ||
    (f.product != "" && f.quantity >= 0 &&
     if f.metric == TASK then f.unit == "tasks" && f.scale == 0 && f.quantity == 1 && MinuteWindow(f)
     else if f.metric == DOWNLOAD then f.unit == "GiB" && f.scale == 9 && f.quantity > 0 && MinuteWindow(f)
     else if f.metric == STORAGE then f.unit == "GiB-month" && f.scale == 9 && f.utcMonth
     else f.metric == WRITE && f.unit == "requests" && f.scale == 0 && f.quantity == 1 && MinuteWindow(f))
  }

  predicate CardComplete(rates: seq<Rate>) { !OtaEnabled(rates) || FourMetersOnce(rates) }

  /** OTA facts count only under a card that prices OTA. */
  function Billable(facts: seq<Fact>, ota: bool): seq<Fact> {
    if |facts| == 0 then []
    else
      var front := Billable(facts[..|facts| - 1], ota);
      if facts[|facts| - 1].service == OTA && !ota then front else front + [facts[|facts| - 1]]
  }

  method BillableUsageFacts(facts: seq<Fact>, rates: seq<Rate>) returns (r: Result<seq<Fact>>)
    ensures r.Ok? <==> CardComplete(rates) && forall i :: 0 <= i < |facts| ==> ValidOtaFact(facts[i])
    ensures r.Ok? ==> r.value == Billable(facts, OtaEnabled(rates))
    ensures r.Err? ==> r.error == InvalidInvoice
  {
    hide ValidOtaFact;
    hide OtaEnabled;
    hide FourMetersOnce;
    var enabled, complete := OTAPricingState(rates);
    if !complete { return Err(InvalidInvoice); }
    var out := [];
    for n := 0 to |facts|
      invariant forall i :: 0 <= i < n ==> ValidOtaFact(facts[i])
      invariant out == Billable(facts[..n], enabled)
    {
      assert facts[..n + 1][..n] == facts[..n];
      if facts[n].service == OTA {
        if !ValidOtaFact(facts[n]) { return Err(InvalidInvoice); }
      } else {
        assert ValidOtaFact(facts[n]) by { NotOta(facts[n]); }
      }
      if facts[n].service != OTA || enabled { out := out + [facts[n]]; }
    }
    assert facts[..|facts|] == facts;
    return Ok(out);
  }

  lemma NotOta(f: Fact)
    requires f.service != OTA
    ensures ValidOtaFact(f)
  { }

  // ---------------------------------------------------------------- sums per key

  function Weight(f: Fact, k: Key): int { if KeyOf(f) == k then f.quantity else 0 }

  function Quantity(facts: seq<Fact>, k: Key): int {
    if |facts| == 0 then 0 else Quantity(facts[..|facts| - 1], k) + Weight(facts[|facts| - 1], k)
  }

  function Ref(f: Fact, k: Key): multiset<string> { if KeyOf(f) == k then multiset{f.usageId} else multiset{} }

  function Refs(facts: seq<Fact>, k: Key): multiset<string> {
    if |facts| == 0 then multiset{} else Refs(facts[..|facts| - 1], k) + Ref(facts[|facts| - 1], k)
  }

  predicate Mentions(facts: seq<Fact>, k: Key) { exists i :: 0 <= i < |facts| && KeyOf(facts[i]) == k }

  /** The sorted list of references is kept as the multiset it lists. */
  datatype Aggregate = Aggregate(quantity: int, scale: int, refs: multiset<string>)

  /** The aggregates say of every key what its facts add up to. */
  ghost predicate Sums(agg: map<Key, Aggregate>, facts: seq<Fact>) {
    && (forall k :: k in agg <==> Mentions(facts, k))
    && (forall k :: k in agg ==> agg[k].quantity == Quantity(facts, k) && agg[k].refs == Refs(facts, k))
    && (forall i :: 0 <= i < |facts| && KeyOf(facts[i]) in agg ==> agg[KeyOf(facts[i])].scale == facts[i].scale)
  }

  predicate Uniform(facts: seq<Fact>) {
    forall i, j :: 0 <= i < |facts| && 0 <= j < |facts| && KeyOf(facts[i]) == KeyOf(facts[j]) ==>
      facts[i].scale == facts[j].scale
  }

  predicate Rateable(f: Fact, rated: set<Identity>) { RateId(KeyOf(f)) in rated && f.quantity >= 0 }

  predicate AllRateable(facts: seq<Fact>, rated: set<Identity>) {
    forall i :: 0 <= i < |facts| ==> Rateable(facts[i], rated)
  }

  ghost predicate QuantitiesFit(facts: seq<Fact>) { forall k :: Quantity(facts, k) <= MAX_INT64 }

  /** When aggregation succeeds. */
  ghost predicate Aggregable(facts: seq<Fact>, rated: set<Identity>) {
    AllRateable(facts, rated) && Uniform(facts) && QuantitiesFit(facts)
  }

  lemma QuantityStep(facts: seq<Fact>, f: Fact, k: Key)
    ensures Quantity(facts + [f], k) == Quantity(facts, k) + Weight(f, k)
    ensures Refs(facts + [f], k) == Refs(facts, k) + Ref(f, k)
    ensures Mentions(facts + [f], k) <==> Mentions(facts, k) || KeyOf(f) == k
  {
    var t := facts + [f];
    assert t[..|facts|] == facts && t[|facts|] == f;
    if Mentions(facts, k) {
      var i :| 0 <= i < |facts| && KeyOf(facts[i]) == k;
      assert KeyOf(t[i]) == k;
    }
  }

  lemma {:induction false} QuantityGrows(facts: seq<Fact>, n: nat, rated: set<Identity>, k: Key)
    requires n <= |facts| && AllRateable(facts, rated)
    ensures 0 <= Quantity(facts[..n], k) <= Quantity(facts, k)
  {
    if |facts| == 0 {
      assert facts[..n] == facts;
    } else {
      var m := |facts| - 1;
      if n <= m {
        QuantityGrows(facts[..m], n, rated, k);
        assert facts[..m][..n] == facts[..n];
      } else {
        QuantityGrows(facts[..m], m, rated, k);
        assert facts[..m][..m] == facts[..m] && facts[..n] == facts;
      }
    }
  }

  lemma {:induction false} Unmentioned(facts: seq<Fact>, k: Key)
    requires !Mentions(facts, k)
    ensures Quantity(facts, k) == 0 && Refs(facts, k) == multiset{}
  {
    if |facts| > 0 {
      var m := |facts| - 1;
      assert facts == facts[..m] + [facts[m]];
      QuantityStep(facts[..m], facts[m], k);
      Unmentioned(facts[..m], k);
    }
  }

  /** One more fact folded into the aggregates. */
  function Fold(agg: map<Key, Aggregate>, f: Fact): map<Key, Aggregate> {
    var k := KeyOf(f);
    var a := if k in agg then agg[k] else Aggregate(0, f.scale, multiset{});
    agg[k := Aggregate(a.quantity + f.quantity, f.scale, a.refs + multiset{f.usageId})]
  }

  lemma FoldAt(agg: map<Key, Aggregate>, facts: seq<Fact>, f: Fact, k: Key)
    requires Sums(agg, facts)
    ensures k in Fold(agg, f) <==> Mentions(facts + [f], k)
    ensures k in Fold(agg, f) ==>
              Fold(agg, f)[k].quantity == Quantity(facts + [f], k) && Fold(agg, f)[k].refs == Refs(facts + [f], k)
  {
    QuantityStep(facts, f, k);
    if k !in agg { Unmentioned(facts, k); }
    hide Mentions;
    hide Quantity;
    hide Refs;
  }

  lemma FoldSums(agg: map<Key, Aggregate>, facts: seq<Fact>, f: Fact)
    requires Sums(agg, facts) && (KeyOf(f) in agg ==> agg[KeyOf(f)].scale == f.scale)
    ensures Sums(Fold(agg, f), facts + [f])
  {
    hide Mentions;
    hide Quantity;
    hide Refs;
    var t, m := facts + [f], Fold(agg, f);
    forall k ensures k in m <==> Mentions(t, k) { FoldAt(agg, facts, f, k); }
    forall k | k in m ensures m[k].quantity == Quantity(t, k) && m[k].refs == Refs(t, k) { FoldAt(agg, facts, f, k); }
    forall i | 0 <= i < |t| && KeyOf(t[i]) in m ensures m[KeyOf(t[i])].scale == t[i].scale {
      if i < |facts| { FactKey(agg, facts, i); }
    }
  }

  lemma FactKey(agg: map<Key, Aggregate>, facts: seq<Fact>, i: nat)
    requires Sums(agg, facts) && i < |facts|
    ensures KeyOf(facts[i]) in agg && agg[KeyOf(facts[i])].scale == facts[i].scale
  {
    assert Mentions(facts, KeyOf(facts[i]));
  }

  /** Sums determines its aggregates. */
  lemma SumsUnique(a: map<Key, Aggregate>, b: map<Key, Aggregate>, facts: seq<Fact>)
    requires Sums(a, facts) && Sums(b, facts)
    ensures a == b
  {
    assert a.Keys == b.Keys;
    forall k | k in a ensures a[k] == b[k] {
      var i :| 0 <= i < |facts| && KeyOf(facts[i]) == k;
      FactKey(a, facts, i);
      FactKey(b, facts, i);
    }
  }

  /** A scale that disagrees, or a sum that overflows, at one fact spoils every longer list. */
  lemma ScaleClash(agg: map<Key, Aggregate>, facts: seq<Fact>, n: nat)
    requires n < |facts| && Sums(agg, facts[..n]) && KeyOf(facts[n]) in agg
    requires agg[KeyOf(facts[n])].scale != facts[n].scale
    ensures !Uniform(facts)
  {
    var k := KeyOf(facts[n]);
    assert Mentions(facts[..n], k);
    var i :| 0 <= i < n && KeyOf(facts[..n][i]) == k;
    FactKey(agg, facts[..n], i);
    assert KeyOf(facts[i]) == KeyOf(facts[n]);
  }

  lemma SumClash(facts: seq<Fact>, n: nat, rated: set<Identity>)
    requires n < |facts| && Quantity(facts[..n], KeyOf(facts[n])) + facts[n].quantity > MAX_INT64
    ensures !(AllRateable(facts, rated) && QuantitiesFit(facts))
  {
    var k := KeyOf(facts[n]);
    assert facts[..n + 1] == facts[..n] + [facts[n]];
    QuantityStep(facts[..n], facts[n], k);
    if AllRateable(facts, rated) { QuantityGrows(facts, n + 1, rated, k); }
  }

  /** The aggregation loop: it succeeds exactly on aggregable facts, with their sums. */
  method AggregateFacts(facts: seq<Fact>, rated: set<Identity>) returns (r: Result<map<Key, Aggregate>>)
    ensures r.Ok? <==> Aggregable(facts, rated)
    ensures r.Ok? ==> Sums(r.value, facts)
  {
    hide Mentions;
    hide Quantity;
    hide Refs;
    var agg: map<Key, Aggregate> := map[];
    NoFacts();
    for n := 0 to |facts|
      invariant forall i :: 0 <= i < n ==> Rateable(facts[i], rated)
      invariant Sums(agg, facts[..n])
      invariant Uniform(facts[..n]) && QuantitiesFit(facts[..n])
    {
      var f := facts[n];
      ghost var done := facts[..n];
      assert facts[..n + 1] == done + [f];
      if RateId(KeyOf(f)) !in rated { return Err(RateNotFound); }
      var seen := if KeyOf(f) in agg then agg[KeyOf(f)] else Aggregate(0, f.scale, multiset{});
      if seen.scale != f.scale {
        ScaleClash(agg, facts, n);
        return Err(InvalidScale);
      }
      KeyQuantity(agg, done, KeyOf(f));
      if f.quantity < 0 { return Err(Overflow); }
      if seen.quantity > MAX_INT64 - f.quantity {
        SumClash(facts, n, rated);
        return Err(Overflow);
      }
      FoldSums(agg, done, f);
      FoldFits(done, f);
      agg := Fold(agg, f);
      SumsUniform(agg, done + [f]);
    }
    assert facts[..|facts|] == facts;
    return Ok(agg);
  }

  lemma NoFacts()
    ensures Sums(map[], []) && QuantitiesFit([])
  { }

  lemma KeyQuantity(agg: map<Key, Aggregate>, facts: seq<Fact>, k: Key)
    requires Sums(agg, facts)
    ensures Quantity(facts, k) == if k in agg then agg[k].quantity else 0
  {
    if k !in agg { Unmentioned(facts, k); }
  }

  lemma SumsUniform(agg: map<Key, Aggregate>, facts: seq<Fact>)
    requires Sums(agg, facts)
    ensures Uniform(facts)
  {
    forall i | 0 <= i < |facts| ensures KeyOf(facts[i]) in agg && agg[KeyOf(facts[i])].scale == facts[i].scale {
      FactKey(agg, facts, i);
    }
  }

  lemma FoldFits(facts: seq<Fact>, f: Fact)
    requires QuantitiesFit(facts) && Quantity(facts, KeyOf(f)) + f.quantity <= MAX_INT64
    ensures QuantitiesFit(facts + [f])
  {
    forall k ensures Quantity(facts + [f], k) <= MAX_INT64 { QuantityStep(facts, f, k); }
  }

  // ---------------------------------------------------------------- order does not matter

  lemma {:induction false} QuantityWithout(facts: seq<Fact>, j: nat, k: Key)
    requires j < |facts|
    ensures Quantity(facts, k) == Quantity(facts[..j] + facts[j + 1..], k) + Weight(facts[j], k)
    ensures Refs(facts, k) == Refs(facts[..j] + facts[j + 1..], k) + Ref(facts[j], k)
  {
    hide Quantity;
    hide Refs;
    hide Mentions;
    var n := |facts| - 1;
    var front, last := facts[..n], facts[n];
    assert facts == front + [last];
    QuantityStep(front, last, k);
    if j < n {
      QuantityWithout(front, j, k);
      var rest := front[..j] + front[j + 1..];
      assert facts[..j] + facts[j + 1..] == rest + [last];
      QuantityStep(rest, last, k);
    } else {
      assert facts[..j] + facts[j + 1..] == front;
    }
  }

  /** The last fact of one list, taken out of the other. */
  lemma RemoveLast(a: seq<Fact>, b: seq<Fact>) returns (j: nat)
    requires multiset(a) == multiset(b) && |a| > 0
    ensures j < |b| && b[j] == a[|a| - 1] && multiset(b[..j] + b[j + 1..]) == multiset(a[..|a| - 1])
  {
    var n := |a| - 1;
    j := SameMembers(a, b, n);
    assert a == a[..n] + [a[n]];
    assert b == b[..j] + [b[j]] + b[j + 1..];
    assert multiset(b[..j] + b[j + 1..]) == multiset(b) - multiset{a[n]};
  }

  lemma {:induction false} QuantityPermutes(a: seq<Fact>, b: seq<Fact>, k: Key)
    requires multiset(a) == multiset(b)
    ensures Quantity(a, k) == Quantity(b, k) && Refs(a, k) == Refs(b, k)
  {
    assert |a| == |multiset(a)| == |b|;
    if |a| > 0 {
      var n := |a| - 1;
      var j := RemoveLast(a, b);
      QuantityPermutes(a[..n], b[..j] + b[j + 1..], k);
      QuantityWithout(b, j, k);
      QuantityWithout(a, n, k);
      assert a[..n] + a[n + 1..] == a[..n];
      hide Quantity;
      hide Refs;
    }
  }

  lemma SameMembers(a: seq<Fact>, b: seq<Fact>, i: nat) returns (j: nat)
    requires multiset(a) == multiset(b) && i < |a|
    ensures j < |b| && b[j] == a[i]
  {
    assert a[i] in multiset(b);
    j :| 0 <= j < |b| && b[j] == a[i];
  }

  /** Aggregates depend on the facts only as a multiset. */
  lemma SumsPermute(agg: map<Key, Aggregate>, a: seq<Fact>, b: seq<Fact>)
    requires multiset(a) == multiset(b) && Sums(agg, a)
    ensures Sums(agg, b)
  {
    forall k ensures Quantity(a, k) == Quantity(b, k) && Refs(a, k) == Refs(b, k) { QuantityPermutes(a, b, k); }
    forall k ensures Mentions(a, k) <==> Mentions(b, k) { MentionsPermute(a, b, k); MentionsPermute(b, a, k); }
    hide Quantity;
    hide Refs;
    hide Mentions;
    forall i | 0 <= i < |b| && KeyOf(b[i]) in agg ensures agg[KeyOf(b[i])].scale == b[i].scale {
      var j := SameMembers(b, a, i);
      FactKey(agg, a, j);
    }
  }

  lemma MentionsPermute(a: seq<Fact>, b: seq<Fact>, k: Key)
    requires multiset(a) == multiset(b)
    ensures Mentions(a, k) ==> Mentions(b, k)
  {
    if Mentions(a, k) {
      var i :| 0 <= i < |a| && KeyOf(a[i]) == k;
      var j := SameMembers(a, b, i);
      assert KeyOf(b[j]) == k;
    }
  }

  lemma AggregablePermutes(a: seq<Fact>, b: seq<Fact>, rated: set<Identity>)
    requires multiset(a) == multiset(b) && Aggregable(a, rated)
    ensures Aggregable(b, rated)
  {
    forall k ensures Quantity(a, k) == Quantity(b, k) { QuantityPermutes(a, b, k); }
    hide Quantity;
    forall i | 0 <= i < |b| ensures Rateable(b[i], rated) { var j := SameMembers(b, a, i); }
    forall i, j | 0 <= i < |b| && 0 <= j < |b| && KeyOf(b[i]) == KeyOf(b[j]) ensures b[i].scale == b[j].scale {
      var p := SameMembers(b, a, i);
      var q := SameMembers(b, a, j);
    }
  }

  lemma {:induction false} BillableCounts(facts: seq<Fact>, ota: bool, f: Fact)
    ensures multiset(Billable(facts, ota))[f] == if f.service == OTA && !ota then 0 else multiset(facts)[f]
  {
    if |facts| > 0 {
      var n := |facts| - 1;
      BillableCounts(facts[..n], ota, f);
      assert facts == facts[..n] + [facts[n]];
    }
  }

  lemma BillablePermutes(a: seq<Fact>, b: seq<Fact>, ota: bool)
    requires multiset(a) == multiset(b)
    ensures multiset(Billable(a, ota)) == multiset(Billable(b, ota))
  {
    forall f ensures multiset(Billable(a, ota))[f] == multiset(Billable(b, ota))[f] {
      BillableCounts(a, ota, f);
      BillableCounts(b, ota, f);
    }
  }

  // ---------------------------------------------------------------- the order is that of the joined keys

  const NUL: char := 0 as char

  predicate NoNul(s: string) { NUL !in s }

  predicate KeyNoNul(k: Key) { NoNul(k.service) && NoNul(k.metric) && NoNul(k.unit) && NoNul(k.product) }

  /** The string under which the store keeps an aggregate. */
  function Joined(k: Key): string { k.service + [NUL] + (k.metric + [NUL] + (k.unit + [NUL] + k.product)) }

  /** Comparing strings: at the first place where they differ, an end or a smaller character comes first. */
  lemma {:induction false} StrLessIff(a: string, b: string)
    ensures StrLess(a, b) <==>
            exists i :: 0 <= i <= |a| && i < |b| && a[..i] == b[..i] && (i == |a| || a[i] < b[i])
  {
    if |b| > 0 && |a| > 0 && a[0] == b[0] {
      StrLessIff(a[1..], b[1..]);
      if StrLess(a, b) {
        var i :| 0 <= i <= |a| - 1 && i < |b| - 1 && a[1..][..i] == b[1..][..i]
          && (i == |a| - 1 || a[1..][i] < b[1..][i]);
        assert a[..i + 1] == [a[0]] + a[1..][..i] && b[..i + 1] == [b[0]] + b[1..][..i];
        assert i + 1 == |a| || a[i + 1] < b[i + 1];
      }
      if i :| 0 <= i <= |a| && i < |b| && a[..i] == b[..i] && (i == |a| || a[i] < b[i]) {
        assert i > 0;
        assert a[1..][..i - 1] == a[..i][1..] == b[..i][1..] == b[1..][..i - 1];
      }
    } else if |b| > 0 {
      assert a[..0] == b[..0];
      if |a| > 0 && b[0] < a[0] {
        forall i | 0 < i <= |a| && i < |b| ensures a[..i] != b[..i] {
          assert a[..i][0] != b[..i][0];
        }
      }
    }
  }

  /** A component is compared before what follows it. */
  lemma {:induction false} JoinCompares(x: string, y: string, x': string, y': string)
    requires NoNul(x) && NoNul(x')
    ensures StrLess(x + [NUL] + y, x' + [NUL] + y') <==> if x != x' then StrLess(x, x') else StrLess(y, y')
  {
    var a, b := x + [NUL] + y, x' + [NUL] + y';
    if |x| == 0 && |x'| == 0 {
      assert a[1..] == y && b[1..] == y';
    } else if |x| > 0 && |x'| > 0 {
      assert a[0] == x[0] && b[0] == x'[0];
      assert a[1..] == x[1..] + [NUL] + y && b[1..] == x'[1..] + [NUL] + y';
      if x[0] == x'[0] {
        JoinCompares(x[1..], y, x'[1..], y');
        assert x == [x[0]] + x[1..] && x' == [x'[0]] + x'[1..];
      }
    } else {
      assert a[0] == (if |x| == 0 then NUL else x[0]) && b[0] == (if |x'| == 0 then NUL else x'[0]);
      assert |x| > 0 ==> x[0] in x;
      assert |x'| > 0 ==> x'[0] in x';
    }
  }

  /** Lines appear in the order of the strings the source sorts. */
  lemma KeyOrderIsJoinedOrder(a: Key, b: Key)
    requires KeyNoNul(a) && KeyNoNul(b)
    ensures KeyLess(a, b) <==> StrLess(Joined(a), Joined(b))
  {
    hide StrLess;
    JoinCompares(a.unit, a.product, b.unit, b.product);
    JoinCompares(a.metric, a.unit + [NUL] + a.product, b.metric, b.unit + [NUL] + b.product);
    JoinCompares(a.service, a.metric + [NUL] + (a.unit + [NUL] + a.product),
                 b.service, b.metric + [NUL] + (b.unit + [NUL] + b.product));
    if a.unit == b.unit { StrTotal(a.product, b.product); }
  }

  // ---------------------------------------------------------------- OTA facts meet their rates

  /** On a card with the four meters, a valid OTA fact has exactly the rate of its meter, at its own scale. */
  lemma OtaFactHasItsRate(f: Fact, rates: seq<Rate>) returns (i: nat)
    requires f.service == OTA && ValidOtaFact(f) && FourMetersOnce(rates)
    ensures i < |rates| && IdOf(rates[i]) == RateId(KeyOf(f)) && rates[i].quantityScale == Some(f.scale)
    ensures f.quantity >= 0 && f.product != ""
  {
    assert f.metric in METERS && HasMeter(rates, f.metric);
    i :| 0 <= i < |rates| && IsOta(rates[i]) && rates[i].metricCode == f.metric;
    assert MeterApproved(rates[i]);
    assert |TASK| == 11 && |DOWNLOAD| == 23 && |STORAGE| == 26 && |WRITE| == 14;
  }

  /** A valid OTA fact belongs to a product; a task or a write is one of its kind in one minute, a download positive
      in one
      minute, storage a whole month's. */
  lemma OtaFactMeans(f: Fact)
    requires f.service == OTA
    ensures var minute := f.from != 0 && f.from % 60_000_000_000 == 0 && f.until - f.from == 60_000_000_000;
            ValidOtaFact(f) <==>
              && f.product != "" && f.quantity >= 0
              && ((f.metric == "device_task" && f.unit == "tasks" && f.scale == 0 && f.quantity == 1 && minute)
                  || (f.metric == "successful_download_gib" && f.unit == "GiB" && f.scale == 9 && f.quantity > 0
                      && minute)
                  || (f.metric == "artifact_storage_gib_month" && f.unit == "GiB-month" && f.scale == 9 && f.utcMonth)
                  || (f.metric == "artifact_write" && f.unit == "requests" && f.scale == 0 && f.quantity == 1
                      && minute))
  {
    assert |TASK| == 11 && |DOWNLOAD| == 23 && |STORAGE| == 26 && |WRITE| == 14;
  }
}
