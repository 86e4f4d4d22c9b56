/** The OTA meters of a price card, and the review that accepts a candidate card only as a conservative
    extension of its base. A sorted list of rates with distinct identities is kept as the set it lists. */
module OtaCard {
  import opened Common
  import opened Money

  const OTA: string := "ota"

  /** The white space that trimming removes. */
  predicate IsSpace(c: char) {
    var n := c as int;
    9 <= n <= 13 || n == 0x20 || n == 0x85 || n == 0xA0 || n == 0x1680 || 0x2000 <= n <= 0x200A
    || n == 0x2028 || n == 0x2029 || n == 0x202F || n == 0x205F || n == 0x3000
  }

  predicate Blank(s: string) { forall i :: 0 <= i < |s| ==> IsSpace(s[i]) }

  /** Not empty and unchanged by trimming. */
  predicate Clean(s: string) { |s| > 0 && !IsSpace(s[0]) && !IsSpace(s[|s| - 1]) }

  type Identity = (string, string, string)

  function IdOf(rate: Rate): Identity { (rate.serviceCode, rate.metricCode, rate.unit) }

  function Ids(rates: seq<Rate>): set<Identity> { set i | 0 <= i < |rates| :: IdOf(rates[i]) }

  predicate DistinctIds(rates: seq<Rate>) {
    forall i, j :: 0 <= i < j < |rates| ==> IdOf(rates[i]) != IdOf(rates[j])
  }

  lemma {:induction false} DistinctCount(rates: seq<Rate>)
    requires DistinctIds(rates)
    ensures |Ids(rates)| == |rates|
  {
    if |rates| > 0 {
      var n := |rates| - 1;
      DistinctCount(rates[..n]);
      assert Ids(rates) == Ids(rates[..n]) + {IdOf(rates[n])};
    }
  }

  // ---------------------------------------------------------------- the four meters

  /** Commercial terms of an approved meter. */
  datatype Meter = Meter(unit: string, price: int, priceScale: int, quantityScale: int)

  const TASK: string := "device_task"
  const DOWNLOAD: string := "successful_download_gib"
  const STORAGE: string := "artifact_storage_gib_month"
  const WRITE: string := "artifact_write"
  const METERS: set<string> := {TASK, DOWNLOAD, STORAGE, WRITE}

  lemma FourMeters()
    ensures |METERS| == 4
  {
    assert |TASK| == 11 && |DOWNLOAD| == 23 && |STORAGE| == 26 && |WRITE| == 14;
  }

  function Approved(metric: string): (r: Option<Meter>)
    ensures r.Some? <==> metric in METERS
  {
    if metric == TASK then Some(Meter("tasks", 96, 3, 0))
    else if metric == DOWNLOAD then Some(Meter("GiB", 96, 2, 9))
    else if metric == STORAGE then Some(Meter("GiB-month", 96, 2, 9))
    else if metric == WRITE then Some(Meter("requests", 144, 6, 0))
    else None
  }

  predicate IsOta(rate: Rate) { rate.serviceCode == OTA }

  /** The rate is exactly the approved meter, taxed under a named category. */
  predicate MeterApproved(rate: Rate) {
    var m := Approved(rate.metricCode);
    && m.Some? && rate.unit == m.value.unit && rate.unitPriceMinor == m.value.price
    && rate.unitPriceScale == m.value.priceScale
    && rate.roundingMode.HalfUp? && rate.quantityScale == Some(m.value.quantityScale)
    && rate.taxCategory.Some? && !Blank(rate.taxCategory.value)
  }

  predicate OtaEnabled(rates: seq<Rate>) { exists i :: 0 <= i < |rates| && IsOta(rates[i]) }

  predicate HasMeter(rates: seq<Rate>, metric: string) {
    exists i :: 0 <= i < |rates| && IsOta(rates[i]) && rates[i].metricCode == metric
  }

  predicate MetersApproved(rates: seq<Rate>) {
    forall i :: 0 <= i < |rates| && IsOta(rates[i]) ==> MeterApproved(rates[i])
  }

  predicate SameMeter(a: Rate, b: Rate) { IsOta(a) && IsOta(b) && a.metricCode == b.metricCode }

  predicate MetersOnce(rates: seq<Rate>) { forall i, j :: 0 <= i < j < |rates| ==> !SameMeter(rates[i], rates[j]) }

  /** Every OTA rate is an approved meter and each of the four meters occurs exactly once. */
  predicate FourMetersOnce(rates: seq<Rate>) {
    MetersApproved(rates) && MetersOnce(rates) && forall m :: m in METERS ==> HasMeter(rates, m)
  }

  /** `seen` is what the loop of OTAPricingState has collected. */
  ghost predicate Collected(rates: seq<Rate>, seen: set<string>) {
    && MetersApproved(rates) && MetersOnce(rates) && (forall m :: m in seen <==> HasMeter(rates, m))
  }

  lemma CollectNext(rates: seq<Rate>, rate: Rate, seen: set<string>)
    requires Collected(rates, seen)
    ensures !IsOta(rate) ==> Collected(rates + [rate], seen)
    ensures IsOta(rate) && MeterApproved(rate) && rate.metricCode !in seen ==>
              Collected(rates + [rate], seen + {rate.metricCode})
    ensures IsOta(rate) && (!MeterApproved(rate) || rate.metricCode in seen) ==>
              !(MetersApproved(rates + [rate]) && MetersOnce(rates + [rate]))
    ensures OtaEnabled(rates + [rate]) <==> OtaEnabled(rates) || IsOta(rate)
  {
    var t, n := rates + [rate], |rates|;
    assert t[n] == rate && t[..n] == rates;
    assert OtaEnabled(rates) ==> OtaEnabled(t) by {
      if OtaEnabled(rates) { var i :| 0 <= i < n && IsOta(rates[i]); assert IsOta(t[i]); }
    }
    forall m ensures HasMeter(t, m) <==> HasMeter(rates, m) || (IsOta(rate) && rate.metricCode == m) {
      HasNext(rates, rate, m);
    }
    if IsOta(rate) && rate.metricCode in seen {
      var i :| 0 <= i < n && IsOta(rates[i]) && rates[i].metricCode == rate.metricCode;
      assert SameMeter(t[i], t[n]);
    }
    if IsOta(rate) && rate.metricCode !in seen {
      forall i | 0 <= i < n ensures !SameMeter(rates[i], rate) {
        assert IsOta(rates[i]) ==> HasMeter(rates, rates[i].metricCode);
      }
    }
    hide HasMeter;
    hide MeterApproved;
  }

  lemma HasNext(rates: seq<Rate>, rate: Rate, m: string)
    ensures HasMeter(rates + [rate], m) <==> HasMeter(rates, m) || (IsOta(rate) && rate.metricCode == m)
  {
    var t := rates + [rate];
    assert t[|rates|] == rate;
    if HasMeter(rates, m) {
      var i :| 0 <= i < |rates| && IsOta(rates[i]) && rates[i].metricCode == m;
      assert IsOta(t[i]) && t[i].metricCode == m;
    }
  }

  /** A failing prefix fails for good. */
  lemma PrefixMeters(rates: seq<Rate>, n: nat)
    requires n <= |rates| && MetersApproved(rates) && MetersOnce(rates)
    ensures MetersApproved(rates[..n]) && MetersOnce(rates[..n])
  { }

  lemma PrefixEnabled(rates: seq<Rate>, n: nat)
    requires n <= |rates| && OtaEnabled(rates[..n])
    ensures OtaEnabled(rates)
  {
    var i :| 0 <= i < n && IsOta(rates[..n][i]);
    assert IsOta(rates[i]);
  }

  /** A subset of the four with four members is all of them. */
  lemma AllSeen(seen: set<string>)
    requires seen <= METERS
    ensures |seen| == 4 <==> seen == METERS
  {
    FourMeters();
    if seen != METERS { assert |METERS| == |seen| + |METERS - seen| by { assert METERS == seen + (METERS - seen); } }
  }

  method OTAPricingState(rates: seq<Rate>) returns (enabled: bool, complete: bool)
    ensures enabled <==> OtaEnabled(rates)
    ensures complete <==> !OtaEnabled(rates) || FourMetersOnce(rates)
  {
    var seen: set<string> := {};
    enabled := false;
    for n := 0 to |rates|
      invariant enabled <==> OtaEnabled(rates[..n])
      invariant Collected(rates[..n], seen)
    {
      var rate := rates[n];
      CollectNext(rates[..n], rate, seen);
      assert rates[..n + 1] == rates[..n] + [rate];
      if IsOta(rate) {
        enabled := true;
        PrefixEnabled(rates, n + 1);
        if rate.metricCode in seen || !MeterApproved(rate) {
          if MetersApproved(rates) && MetersOnce(rates) {
            PrefixMeters(rates, n + 1);
            assert false;
          }
          return true, false;
        }
        seen := seen + {rate.metricCode};
      }
    }
    assert rates[..|rates|] == rates;
    forall m | m in seen ensures m in METERS {
      var i :| 0 <= i < |rates| && IsOta(rates[i]) && rates[i].metricCode == m;
      assert MeterApproved(rates[i]);
    }
    AllSeen(seen);
    complete := !enabled || |seen| == 4;
  }

  // ---------------------------------------------------------------- the review

  /** canonicalPricingRate accepts the rate; its canonical form is the rate itself. */
  predicate Canonical(rate: Rate) {
    && Clean(rate.serviceCode) && Clean(rate.metricCode) && Clean(rate.unit) && Clean(rate.description)
    && rate.quantityScale.Some? && 0 <= rate.quantityScale.value <= 9
    && rate.unitPriceMinor >= 0 && 0 <= rate.unitPriceScale <= 9 && !rate.roundingMode.OtherRounding?
    && rate.taxCategory.Some? && Clean(rate.taxCategory.value) && 0 <= rate.taxRateBasisPoints <= 10000
  }

  /** Legacy base rates may lack a quantity scale or a tax category; everything recorded must agree. */
  predicate MatchesBaseRate(base: Rate, candidate: Rate) {
    && candidate == base.(quantityScale := candidate.quantityScale, taxCategory := candidate.taxCategory)
    && (base.quantityScale.Some? ==> base.quantityScale == candidate.quantityScale)
    && (base.taxCategory.Some? ==> base.taxCategory == candidate.taxCategory)
  }

  predicate BaseRateOk(rate: Rate) {
    !IsOta(rate) && Clean(rate.serviceCode) && Clean(rate.metricCode) && Clean(rate.unit)
  }

  predicate BaseOk(base: seq<Rate>) {
    |base| > 0 && (forall i :: 0 <= i < |base| ==> BaseRateOk(base[i])) && DistinctIds(base)
  }

  /** The candidate's rate is an OTA meter or a base rate, completed at most. */
  predicate Kept(base: seq<Rate>, rate: Rate) {
    IsOta(rate) || exists i :: 0 <= i < |base| && IdOf(base[i]) == IdOf(rate) && MatchesBaseRate(base[i], rate)
  }

  predicate CandidateOk(base: seq<Rate>, candidate: seq<Rate>) {
    && (forall i :: 0 <= i < |candidate| ==> Canonical(candidate[i]) && Kept(base, candidate[i]))
    && DistinctIds(candidate)
  }

  /** What the review stands for. */
  ghost predicate Accepts(baseId: string, base: seq<Rate>, candidate: seq<Rate>) {
    && !Blank(baseId) && BaseOk(base) && |candidate| == |base| + 4
    && OtaEnabled(candidate) && FourMetersOnce(candidate) && CandidateOk(base, candidate)
  }

  function OtaIds(rates: seq<Rate>): set<Identity> { set i | 0 <= i < |rates| && IsOta(rates[i]) :: IdOf(rates[i]) }

  function OtherIds(rates: seq<Rate>): set<Identity> { set i | 0 <= i < |rates| && !IsOta(rates[i]) :: IdOf(rates[i]) }

  function MeterId(metric: string): Identity
    requires metric in METERS
  {
    (OTA, metric, Approved(metric).value.unit)
  }

  function MeterIds(): set<Identity> { set m | m in METERS :: MeterId(m) }

  lemma FourIds()
    ensures |MeterIds()| == 4
  {
    FourMeters();
    assert MeterIds() == {MeterId(TASK), MeterId(DOWNLOAD), MeterId(STORAGE), MeterId(WRITE)};
    assert |TASK| == 11 && |DOWNLOAD| == 23 && |STORAGE| == 26 && |WRITE| == 14;
    assert MeterId(TASK).1 == TASK && MeterId(DOWNLOAD).1 == DOWNLOAD && MeterId(STORAGE).1 == STORAGE
      && MeterId(WRITE).1 == WRITE;
  }

  /** The OTA part of a complete card is exactly the four meters. */
  lemma MeterPart(rates: seq<Rate>)
    requires FourMetersOnce(rates)
    ensures OtaIds(rates) == MeterIds()
  {
    forall id | id in OtaIds(rates) ensures id in MeterIds() {
      var i :| 0 <= i < |rates| && IsOta(rates[i]) && IdOf(rates[i]) == id;
      assert MeterApproved(rates[i]);
      assert id == MeterId(rates[i].metricCode);
    }
    forall m | m in METERS ensures MeterId(m) in OtaIds(rates) {
      assert HasMeter(rates, m);
      var i :| 0 <= i < |rates| && IsOta(rates[i]) && rates[i].metricCode == m;
      assert MeterApproved(rates[i]);
      assert IdOf(rates[i]) == MeterId(m);
    }
  }

  lemma OthersAreBase(base: seq<Rate>, candidate: seq<Rate>)
    requires CandidateOk(base, candidate)
    ensures OtherIds(candidate) <= Ids(base)
  {
    forall id | id in OtherIds(candidate) ensures id in Ids(base) {
      var i :| 0 <= i < |candidate| && !IsOta(candidate[i]) && IdOf(candidate[i]) == id;
      assert Kept(base, candidate[i]);
    }
  }

  lemma IdsSplit(rates: seq<Rate>)
    ensures Ids(rates) == OtherIds(rates) + OtaIds(rates) && OtherIds(rates) !! OtaIds(rates)
  { }

  /** The counting argument: the candidate's other identities are all the base's, and as many. */
  lemma ExtensionIsConservative(baseId: string, base: seq<Rate>, candidate: seq<Rate>)
    requires Accepts(baseId, base, candidate)
    ensures OtherIds(candidate) == Ids(base) && OtaIds(candidate) == MeterIds()
  {
    MeterPart(candidate);
    OthersAreBase(base, candidate);
    DistinctCount(base);
    DistinctCount(candidate);
    hide FourMetersOnce;
    hide OtaEnabled;
    hide CandidateOk;
    hide BaseOk;
    FourIds();
    IdsSplit(candidate);
    hide OtherIds;
    hide OtaIds;
    hide Ids;
    hide MeterIds;
    assert |Ids(candidate)| == |OtherIds(candidate)| + |OtaIds(candidate)|;
    SubsetOfSameSize(OtherIds(candidate), Ids(base));
  }

  lemma SubsetOfSameSize(a: set<Identity>, b: set<Identity>)
    requires a <= b && |a| == |b|
    ensures a == b
  {
    assert b == a + (b - a);
    assert |b| == |a| + |b - a|;
  }

  /** Every base rate is in the accepted card, once, with all its recorded terms. */
  lemma BaseRateSurvives(baseId: string, base: seq<Rate>, candidate: seq<Rate>, b: nat) returns (c: nat)
    requires Accepts(baseId, base, candidate) && b < |base|
    ensures c < |candidate| && MatchesBaseRate(base[b], candidate[c])
    ensures forall i :: 0 <= i < |candidate| && IdOf(candidate[i]) == IdOf(base[b]) ==> i == c
  {
    ExtensionIsConservative(baseId, base, candidate);
    hide FourMetersOnce;
    hide OtaEnabled;
    assert IdOf(base[b]) in OtherIds(candidate);
    c :| 0 <= c < |candidate| && !IsOta(candidate[c]) && IdOf(candidate[c]) == IdOf(base[b]);
    assert Kept(base, candidate[c]);
    var i :| 0 <= i < |base| && IdOf(base[i]) == IdOf(candidate[c]) && MatchesBaseRate(base[i], candidate[c]);
    assert i == b;
  }

  /** Pricing under a completed rate is pricing under the base rate, for every quantity it admits; it admits
      what the base admits at the scale it fixes. */
  lemma SamePrice(base: Rate, candidate: Rate, quantity: int, scale: int)
    requires MatchesBaseRate(base, candidate) && candidate.quantityScale.Some?
    ensures PriceUsage(candidate, quantity, scale).Ok? ==>
              PriceUsage(base, quantity, scale) == PriceUsage(candidate, quantity, scale)
    ensures PriceUsage(candidate, quantity, scale).Ok?
            <==> PriceUsage(base, quantity, scale).Ok? && scale == candidate.quantityScale.value
    ensures PriceSubtotal(candidate, quantity, scale).Ok? ==>
              PriceSubtotal(base, quantity, scale) == PriceSubtotal(candidate, quantity, scale)
    ensures PriceSubtotal(candidate, quantity, scale).Ok?
            <==> PriceSubtotal(base, quantity, scale).Ok? && scale == candidate.quantityScale.value
  {
    hide RoundedInt64;
  }

  /** Whatever non-OTA quantity an accepted card prices, its base prices the same, subtotal and tax. */
  lemma AcceptedCardPricesAlike(
    baseId: string, base: seq<Rate>, candidate: seq<Rate>, c: nat, quantity: int, scale: int)
    returns (b: nat)
    requires Accepts(baseId, base, candidate) && c < |candidate| && !IsOta(candidate[c])
    ensures b < |base| && IdOf(base[b]) == IdOf(candidate[c])
    ensures PriceUsage(candidate[c], quantity, scale).Ok? ==>
              PriceUsage(base[b], quantity, scale) == PriceUsage(candidate[c], quantity, scale)
    ensures PriceSubtotal(candidate[c], quantity, scale).Ok? ==>
              PriceSubtotal(base[b], quantity, scale) == PriceSubtotal(candidate[c], quantity, scale)
  {
    hide FourMetersOnce;
    hide PriceUsage;
    hide PriceSubtotal;
    assert Canonical(candidate[c]) && Kept(base, candidate[c]);
    b :| 0 <= b < |base| && IdOf(base[b]) == IdOf(candidate[c]) && MatchesBaseRate(base[b], candidate[c]);
    SamePrice(base[b], candidate[c], quantity, scale);
  }

  // ---------------------------------------------------------------- the review's loops

  /** The map a card indexes to. */
  ghost predicate Indexes(m: map<Identity, Rate>, base: seq<Rate>) {
    && m.Keys == Ids(base)
    && (forall i :: 0 <= i < |base| ==> m[IdOf(base[i])] == base[i])
  }

  method IndexBase(base: seq<Rate>) returns (ok: bool, m: map<Identity, Rate>)
    ensures ok <==> (forall i :: 0 <= i < |base| ==> BaseRateOk(base[i])) && DistinctIds(base)
    ensures ok ==> Indexes(m, base)
  {
    m := map[];
    for n := 0 to |base|
      invariant forall i :: 0 <= i < n ==> BaseRateOk(base[i])
      invariant DistinctIds(base[..n])
      invariant Indexes(m, base[..n])
    {
      if !BaseRateOk(base[n]) { return false, m; }
      var key := IdOf(base[n]);
      if key in m {
        var i :| 0 <= i < n && IdOf(base[..n][i]) == key;
        assert IdOf(base[i]) == IdOf(base[n]);
        return false, m;
      }
      IndexNext(m, base[..n], base[n]);
      assert base[..n + 1] == base[..n] + [base[n]];
      m := m[key := base[n]];
    }
    assert base[..|base|] == base;
    ok := true;
  }

  lemma IndexNext(m: map<Identity, Rate>, base: seq<Rate>, rate: Rate)
    requires DistinctIds(base) && Indexes(m, base) && IdOf(rate) !in m
    ensures DistinctIds(base + [rate]) && Indexes(m[IdOf(rate) := rate], base + [rate])
  {
    var t := base + [rate];
    forall i | 0 <= i < |base| ensures IdOf(t[i]) != IdOf(rate) { assert IdOf(base[i]) in Ids(base); }
    assert Ids(t) == Ids(base) + {IdOf(rate)} by { IdsNext(base, rate); }
  }

  lemma IdsNext(rates: seq<Rate>, rate: Rate)
    ensures Ids(rates + [rate]) == Ids(rates) + {IdOf(rate)}
    ensures IdOf(rate) !in Ids(rates) && DistinctIds(rates) ==> DistinctIds(rates + [rate])
    ensures IdOf(rate) in Ids(rates) ==> !DistinctIds(rates + [rate])
  {
    var t := rates + [rate];
    assert t[|rates|] == rate;
    forall i | 0 <= i < |rates| ensures IdOf(t[i]) in Ids(rates) { assert IdOf(rates[i]) in Ids(rates); }
    forall id | id in Ids(rates) ensures id in Ids(t) {
      var i :| 0 <= i < |rates| && IdOf(rates[i]) == id;
      assert IdOf(t[i]) == id;
    }
    if IdOf(rate) in Ids(rates) {
      var i :| 0 <= i < |rates| && IdOf(rates[i]) == IdOf(rate);
      assert IdOf(t[i]) == IdOf(t[|rates|]);
    }
  }

  /** Looking a rate up in the index decides whether the base keeps it. */
  lemma KeptByIndex(m: map<Identity, Rate>, base: seq<Rate>, rate: Rate)
    requires Indexes(m, base) && !IsOta(rate)
    ensures Kept(base, rate) <==> IdOf(rate) in m && MatchesBaseRate(m[IdOf(rate)], rate)
  {
    if IdOf(rate) in m {
      var i :| 0 <= i < |base| && IdOf(base[i]) == IdOf(rate);
      assert m[IdOf(rate)] == base[i];
    }
  }

  function OtaRates(rates: seq<Rate>): seq<Rate> {
    if |rates| == 0 then []
    else if IsOta(rates[|rates| - 1]) then OtaRates(rates[..|rates| - 1]) + [rates[|rates| - 1]]
    else OtaRates(rates[..|rates| - 1])
  }

  lemma CandidateNext(base: seq<Rate>, done: seq<Rate>, rate: Rate)
    requires CandidateOk(base, done)
    ensures CandidateOk(base, done + [rate]) <==> Canonical(rate) && Kept(base, rate) && IdOf(rate) !in Ids(done)
  {
    IdsNext(done, rate);
    var t := done + [rate];
    assert t[|done|] == rate;
    hide Canonical;
    hide Kept;
    hide Ids;
    hide DistinctIds;
  }

  lemma CandidatePrefix(base: seq<Rate>, candidate: seq<Rate>, n: nat)
    requires n <= |candidate| && CandidateOk(base, candidate)
    ensures CandidateOk(base, candidate[..n])
  {
    hide Canonical;
    hide Kept;
  }

  method ReviewCandidate(base: seq<Rate>, m: map<Identity, Rate>, candidate: seq<Rate>)
    returns (ok: bool, ordered: seq<Rate>, added: seq<Rate>, seen: set<Identity>)
    requires Indexes(m, base)
    ensures ok <==> CandidateOk(base, candidate)
    ensures ok ==> ordered == candidate && added == OtaRates(candidate) && seen == Ids(candidate)
  {
    hide CandidateOk;
    hide Indexes;
    hide Kept;
    ordered, added, seen := [], [], {};
    assert CandidateOk(base, []) by { NothingOk(base); }
    for n := 0 to |candidate|
      invariant CandidateOk(base, candidate[..n])
      invariant ordered == candidate[..n] && added == OtaRates(candidate[..n]) && seen == Ids(candidate[..n])
    {
      var rate := candidate[n];
      ghost var done := candidate[..n];
      assert candidate[..n + 1] == done + [rate] && (done + [rate])[..n] == done;
      IdsNext(done, rate);
      CandidateNext(base, done, rate);
      if !IsOta(rate) { KeptByIndex(m, base, rate); } else { OtaKept(base, rate); }
      assert CandidateOk(base, candidate) ==> CandidateOk(base, candidate[..n + 1]) by {
        if CandidateOk(base, candidate) { CandidatePrefix(base, candidate, n + 1); }
      }
      if !Canonical(rate) { return false, ordered, added, seen; }
      if IdOf(rate) in seen { return false, ordered, added, seen; }
      seen := seen + {IdOf(rate)};
      if IsOta(rate) {
        added := added + [rate];
      } else if IdOf(rate) !in m || !MatchesBaseRate(m[IdOf(rate)], rate) {
        return false, ordered, added, seen;
      }
      ordered := ordered + [rate];
    }
    assert candidate[..|candidate|] == candidate;
    ok := true;
  }

  lemma NothingOk(base: seq<Rate>)
    ensures CandidateOk(base, [])
  { }

  lemma OtaKept(base: seq<Rate>, rate: Rate)
    requires IsOta(rate)
    ensures Kept(base, rate)
  { }

  lemma {:induction false} OtaRatesAre(rates: seq<Rate>)
    ensures Ids(OtaRates(rates)) == OtaIds(rates)
    ensures DistinctIds(rates) ==> DistinctIds(OtaRates(rates))
  {
    if |rates| > 0 {
      var n := |rates| - 1;
      var front, last := rates[..n], rates[n];
      OtaRatesAre(front);
      assert rates == front + [last];
      OtaIdsNext(front, last);
      if IsOta(last) {
        IdsNext(OtaRates(front), last);
        IdsNext(front, last);
        if DistinctIds(rates) {
          DistinctPrefix(rates, n);
          assert IdOf(last) !in Ids(front);
          assert OtaIds(front) <= Ids(front);
        }
      } else if DistinctIds(rates) {
        DistinctPrefix(rates, n);
      }
    }
  }

  lemma DistinctPrefix(rates: seq<Rate>, n: nat)
    requires n <= |rates| && DistinctIds(rates)
    ensures DistinctIds(rates[..n])
  { }

  lemma OtaIdsNext(rates: seq<Rate>, rate: Rate)
    ensures OtaIds(rates + [rate]) == OtaIds(rates) + if IsOta(rate) then {IdOf(rate)} else {}
  {
    var t := rates + [rate];
    assert t[|rates|] == rate;
    forall id | id in OtaIds(rates) ensures id in OtaIds(t) {
      var i :| 0 <= i < |rates| && IsOta(rates[i]) && IdOf(rates[i]) == id;
      assert IdOf(t[i]) == id && IsOta(t[i]);
    }
    forall id | id in OtaIds(t) ensures id in OtaIds(rates) || (IsOta(rate) && id == IdOf(rate)) {
      var i :| 0 <= i < |t| && IsOta(t[i]) && IdOf(t[i]) == id;
      assert i < |rates| ==> IdOf(rates[i]) == id && IsOta(rates[i]);
    }
  }

  /** The closing count check of the review cannot fail. */
  lemma AcceptedCounts(baseId: string, base: seq<Rate>, candidate: seq<Rate>, m: map<Identity, Rate>)
    requires Accepts(baseId, base, candidate) && Indexes(m, base)
    ensures |OtaRates(candidate)| == 4 && |Ids(candidate)| == |m| + |OtaRates(candidate)|
  {
    ExtensionIsConservative(baseId, base, candidate);
    hide FourMetersOnce;
    FourIds();
    OtaRatesAre(candidate);
    DistinctCount(OtaRates(candidate));
    DistinctCount(candidate);
    DistinctCount(base);
    assert |m| == |m.Keys|;
  }

  function AsSet(rates: seq<Rate>): set<Rate> { set i | 0 <= i < |rates| :: rates[i] }

  datatype Review = Rejected | Reviewed(base: string, content: set<Rate>, added: set<Rate>)

  /** The review accepts exactly the cards that Accepts describes; its closing count check is unreachable. */
  method ReviewOTACandidateRates(baseId: string, base: seq<Rate>, candidate: seq<Rate>) returns (r: Review)
    ensures r.Reviewed? <==> Accepts(baseId, base, candidate)
    ensures r.Reviewed? ==> r == Reviewed(baseId, AsSet(candidate), AsSet(OtaRates(candidate)))
  {
    if Blank(baseId) || |base| == 0 || |candidate| != |base| + 4 { return Rejected; }
    var baseOk, byIdentity := IndexBase(base);
    if !baseOk { return Rejected; }
    var enabled, complete := OTAPricingState(candidate);
    if !enabled || !complete { return Rejected; }
    var ok, ordered, added, seen := ReviewCandidate(base, byIdentity, candidate);
    if !ok { return Rejected; }
    AcceptedCounts(baseId, base, candidate, byIdentity);
    if |added| != 4 || |seen| != |byIdentity| + |added| {
      assert false;
    }
    return Reviewed(baseId, AsSet(ordered), AsSet(added));
  }

  /** A rate the review accepts can price every non-negative quantity at its scale, up to overflow. */
  lemma CanonicalPrices(rate: Rate, quantity: int)
    requires Canonical(rate) && quantity >= 0
    ensures Priceable(rate, quantity, rate.quantityScale.value)
    ensures PriceSubtotal(rate, quantity, rate.quantityScale.value).Ok?
            || PriceSubtotal(rate, quantity, rate.quantityScale.value) == Err(Overflow)
  {
    NonNegative(quantity, rate.unitPriceMinor);
  }

  /** The four meters and their prices per unit: 0.096 a task, 0.96 a GiB downloaded, 0.96 a GiB stored for a month,
      0.000144 a write; whole tasks and writes, GiB to nine decimals; half up; taxed under a named category. */
  lemma MetersAre(rate: Rate)
    ensures MeterApproved(rate) <==>
            && rate.roundingMode.HalfUp? && rate.taxCategory.Some?
            && (exists i :: 0 <= i < |rate.taxCategory.value| && !IsSpace(rate.taxCategory.value[i]))
            && ((rate.metricCode == "device_task" && rate.unit == "tasks" && Costs(rate, 96, 3, 0))
                || (rate.metricCode == "successful_download_gib" && rate.unit == "GiB" && Costs(rate, 96, 2, 9))
                || (rate.metricCode == "artifact_storage_gib_month" && rate.unit == "GiB-month"
                    && Costs(rate, 96, 2, 9))
                || (rate.metricCode == "artifact_write" && rate.unit == "requests" && Costs(rate, 144, 6, 0)))
  {
    assert |TASK| == 11 && |DOWNLOAD| == 23 && |STORAGE| == 26 && |WRITE| == 14;
  }

  predicate Costs(rate: Rate, price: int, priceScale: int, quantityScale: int) {
    rate.unitPriceMinor == price && rate.unitPriceScale == priceScale && rate.quantityScale == Some(quantityScale)
  }
}
