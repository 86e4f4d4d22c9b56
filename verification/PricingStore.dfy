/** The pricing store as the object it is: activation under the exclusive lock, invoice preparation under the
    shared one. Every method keeps the chain of intervals and the rating of issued invoices. */
module PricingStore {
  import opened Common
  import opened PriceBook

  ghost predicate Did(before: Book, r: Outcome, after: Book, error: Option<PriceError>) {
    && after == (if r.Done? then r.book else before)
    && error == (if r.Done? then None else Some(r.error))
  }

  class Store {
    var versions: map<Id, Version>
    var invoices: map<Id, Invoice>
    /** Preparations that hold the shared lock. */
    var preparing: map<Id, Preparation>

    ghost function View(): Book
      reads this
    {
      Book(versions, invoices, preparing)
    }

    ghost predicate Valid()
      reads this
    {
      ChainLaw(versions) && RatingLaw(View())
    }

    constructor ()
      ensures Valid() && View() == EMPTY
    {
      versions, invoices, preparing := map[], map[], map[];
    }

    /** The rows of a query, in whatever order the database yields them. */
    method Rows(ids: set<Id>) returns (rows: seq<Id>)
      ensures (set id | id in rows) == ids && |rows| == |ids|
      ensures forall i, j :: 0 <= i < j < |rows| ==> rows[i] != rows[j]
    {
      rows := [];
      var rest := ids;
      while rest != {}
        invariant |rows| + |rest| == |ids|
        invariant rest <= ids && forall id :: id in rows <==> id in ids && id !in rest
        invariant forall i, j :: 0 <= i < j < |rows| ==> rows[i] != rows[j]
        decreases |rest|
      {
        var id :| id in rest;
        assert forall i :: 0 <= i < |rows| ==> rows[i] in rows;
        rows := rows + [id];
        rest := rest - {id};
      }
    }

    /** Under the chain law the second row the query allows for never comes. */
    method ActivePricingVersion(at: Time) returns (r: Selection)
      requires Valid()
      ensures r == ActiveVersion(versions, at) && r != NotSelected(Conflict)
    {
      AtMostOneCandidate(versions, at);
      var rows := Rows(Candidates(versions, at));
      ghost var c := Candidates(versions, at);
      hide Candidates;
      hide ChainLaw;
      if |rows| == 0 { assert c == {}; return NotSelected(Unavailable); }
      assert rows[0] in c;
      AtMostOne(c);
      if |rows| > 1 {
        assert false;
      }
      assert c == {rows[0]};
      return Selected(rows[0]);
    }

    method ActivatePricingVersion(id: Id, now: Time, approval: Option<Approval>) returns (error: Option<PriceError>)
      requires Valid()
      modifies this`versions
      ensures Valid() && Did(old(View()), Activate(old(View()), id, now, approval), View(), error)
    {
      StepKeepsLaws(View(), Publish(id, now, approval));
      hide ChainLaw;
      hide RatingLaw;
      error := ActivateTx(id, now, approval);
    }

    method ActivateTx(id: Id, now: Time, approval: Option<Approval>) returns (error: Option<PriceError>)
      requires Valid()
      modifies this`versions
      ensures Did(old(View()), Activate(old(View()), id, now, approval), View(), error)
    {
      hide RatingLaw;
      if preparing != map[] { return Some(LockHeld); }
      if id !in versions { return Some(NotFound); }
      var v := versions[id];
      if !v.status.Draft? { return Some(Conflict); }
      if approval.None? && v.invoiceTotalTax { return Some(Conflict); }
      if !v.otaComplete { return Some(Conflict); }
      if approval.None? && v.otaEnabled { return Some(Conflict); }
      if approval.Some? {
        if !v.otaEnabled || !v.invoiceTotalTax || !approval.value.wellFormed || !approval.value.reviewed {
          return Some(Conflict);
        }
        var current := ActivePricingVersion(now);
        if current != Selected(approval.value.base) { return Some(Conflict); }
      }
      hide ChainLaw;
      hide ActiveVersion;
      hide Attach;
      var scheduled := v.from > now;
      if approval.Some? && !scheduled { return Some(Conflict); }
      if scheduled && !v.monthStart { return Some(Conflict); }
      if exists p :: p in versions && Published(versions[p]) && versions[p].from > now { return Some(Conflict); }
      error := AttachTx(id, now, approval);
    }

    /** Scan the overlapping rows, retire the one predecessor, publish. */
    method AttachTx(id: Id, now: Time, approval: Option<Approval>) returns (error: Option<PriceError>)
      requires id in versions
      modifies this`versions
      ensures Did(old(View()), Attach(old(View()), id, now, approval), View(), error)
    {
      hide ScanRows;
      hide Bridges;
      var v := versions[id];
      var scheduled := v.from > now;
      var rows := Rows(Overlapping(versions, id, v.from));
      assert forall i :: 0 <= i < |rows| ==> rows[i] in Overlapping(versions, id, v.from);
      var scan := ScanOverlapping(rows, versions, v.from, scheduled, now);
      if scan.ScanConflict? { return Some(Conflict); }
      if scan.id.None? {
        if scheduled || !Bridges(versions, v.from) { return Some(Conflict); }
      } else {
        var p := scan.id.value;
        if approval.Some? && p != approval.value.base { return Some(Conflict); }
        if exists i :: i in invoices && invoices[i].version == p && invoices[i].start >= v.from {
          return Some(Conflict);
        }
        assert p in versions by { FoundRow(versions, id, v.from, scheduled, now); }
        versions := versions[p := versions[p].(status := Retired, until := Some(v.from))];
      }
      versions := versions[id := v.(status := Active)];
      return None;
    }

    /** PrepareInvoice up to the selection of the version, holding the shared lock from here on. */
    method SelectVersion(worker: Id, period: Id, start: Time) returns (error: Option<PriceError>)
      requires Valid()
      modifies this`preparing
      ensures Valid() && Did(old(View()), Select(old(View()), worker, period, start), View(), error)
    {
      StepKeepsLaws(View(), Begin(worker, period, start));
      if worker in preparing { return Some(Conflict); }
      if period in invoices { return None; }
      var selected := ActivePricingVersion(start);
      hide ChainLaw;
      hide RatingLaw;
      hide ActiveVersion;
      if selected.NotSelected? { return Some(selected.error); }
      preparing := preparing[worker := Preparation(period, start, selected.id)];
      return None;
    }

    /** PrepareInvoice from there to its commit, which releases the lock. */
    method IssueInvoice(worker: Id) returns (error: Option<PriceError>)
      requires Valid()
      modifies this`preparing, this`invoices
      ensures Valid() && Did(old(View()), Issue(old(View()), worker), View(), error)
    {
      StepKeepsLaws(View(), Finish(worker));
      hide ChainLaw;
      hide RatingLaw;
      if worker !in preparing { return Some(NotFound); }
      var p := preparing[worker];
      if p.period !in invoices { invoices := invoices[p.period := Invoice(p.start, p.version)]; }
      preparing := preparing - {worker};
      return None;
    }
  }

  lemma AtMostOne(ids: set<Id>)
    requires forall p, q :: p in ids && q in ids ==> p == q
    ensures |ids| <= 1
  {
    if ids != {} {
      var p :| p in ids;
      assert ids == {p};
    }
  }

  lemma FoundRow(versions: map<Id, Version>, id: Id, from: Time, scheduled: bool, now: Time)
    requires ScanRows(versions, Overlapping(versions, id, from), from, scheduled, now).Previous?
    ensures var r := ScanRows(versions, Overlapping(versions, id, from), from, scheduled, now);
            r.id.Some? ==> r.id.value in versions
  { }
}
