/** The price book of the settlement currency and the invoices rated with it. Activation holds the
    advisory lock exclusively; preparing an invoice holds it shared from the selection of the version to
    the insert of the invoice, so the two are separate steps with activation disabled in between. */
module PriceBook {
  import opened Common

  type Id = string
  type Time = int

  datatype Publication = Draft | Active | Retired

  /** One pricing plan version. `monthStart` says whether its start is the first instant of a UTC month. */
  datatype Version = Version(
    status: Publication, from: Time, until: Option<Time>, monthStart: bool,
    invoiceTotalTax: bool, otaEnabled: bool, otaComplete: bool)

  /** `wellFormed` collects sign-off, digest, tax and draft-record checks; `reviewed` the rate-set review. */
  datatype Approval = Approval(base: Id, wellFormed: bool, reviewed: bool)

  datatype Invoice = Invoice(start: Time, version: Id)

  datatype Book = Book(versions: map<Id, Version>, invoices: map<Id, Invoice>, preparing: map<Id, Preparation>)

  /** A worker between selecting the version and issuing the invoice of a period. */
  datatype Preparation = Preparation(period: Id, start: Time, version: Id)

  datatype PriceError = NotFound | Conflict | Unavailable | LockHeld
  datatype Outcome = Done(book: Book) | Fail(error: PriceError)

  predicate Published(v: Version) { !v.status.Draft? }

  predicate Covers(v: Version, at: Time) {
    v.from <= at && (v.until.None? || v.until.value > at)
  }

  /** The rows ActivePricingVersion selects. */
  function Candidates(versions: map<Id, Version>, at: Time): set<Id> {
    set id | id in versions && Published(versions[id]) && Covers(versions[id], at)
  }

  /** The only element of a singleton. */
  ghost function Sole(ids: set<Id>): (r: Option<Id>)
    ensures r.Some? <==> exists id :: ids == {id}
    ensures r.Some? ==> ids == {r.value}
  {
    if exists id :: ids == {id} then
      var id :| ids == {id};
      Some(id)
    else None
  }

  datatype Selection = Selected(id: Id) | NotSelected(error: PriceError)

  /** ActivePricingVersion: no row is unavailable, two rows are a conflict. */
  ghost function ActiveVersion(versions: map<Id, Version>, at: Time): Selection {
    var c := Candidates(versions, at);
    if c == {} then NotSelected(Unavailable)
    else if Sole(c).Some? then Selected(Sole(c).value)
    else NotSelected(Conflict)
  }

  // ---------------------------------------------------------------- activation

  /** Published rows whose interval reaches past the new start. */
  function Overlapping(versions: map<Id, Version>, id: Id, from: Time): set<Id> {
    set p | p in versions && p != id && Published(versions[p])
      && (versions[p].until.None? || versions[p].until.value > from)
  }

  /** A row the scan accepts as the predecessor. */
  predicate Extendable(p: Version, from: Time, scheduled: bool, now: Time) {
    p.status.Active? && from > p.from && !(scheduled && p.from > now)
  }

  datatype Scan = Previous(id: Option<Id>) | ScanConflict

  /** The verdict on the set of overlapping rows. */
  ghost function ScanRows(versions: map<Id, Version>, rows: set<Id>, from: Time, scheduled: bool, now: Time): Scan
    requires rows <= versions.Keys
  {
    if (exists p :: p in rows && !Extendable(versions[p], from, scheduled, now)) || (rows != {} && Sole(rows).None?)
    then ScanConflict
    else Previous(Sole(rows))
  }

  /** The row scan reaches that verdict in whatever order the database returns the rows. */
  method ScanOverlapping(
    rows: seq<Id>, versions: map<Id, Version>, from: Time, scheduled: bool, now: Time) returns (r: Scan)
    requires forall i :: 0 <= i < |rows| ==> rows[i] in versions
    requires forall i, j :: 0 <= i < j < |rows| ==> rows[i] != rows[j]
    ensures r == ScanRows(versions, (set id | id in rows), from, scheduled, now)
  {
    ghost var ids := set id | id in rows;
    var previous: Option<Id> := None;
    for i := 0 to |rows|
      invariant i <= 1
      invariant previous == if i == 0 then None else Some(rows[0])
      invariant forall j :: 0 <= j < i ==> Extendable(versions[rows[j]], from, scheduled, now)
    {
      if previous.Some? || !Extendable(versions[rows[i]], from, scheduled, now) {
        assert rows[i] in ids && rows[0] in ids;
        return ScanConflict;
      }
      previous := Some(rows[i]);
    }
    assert |rows| == 1 ==> ids == {rows[0]};
    return Previous(previous);
  }

  /** The gap check made when no row overlaps: the latest earlier interval must end exactly at the new start. */
  predicate Bridges(versions: map<Id, Version>, from: Time) {
    forall p :: p in versions && Published(versions[p]) && versions[p].from < from
      && (forall q :: q in versions && Published(versions[q]) && versions[q].from < from ==>
            versions[q].from <= versions[p].from)
      ==> versions[p].until == Some(from)
  }

  predicate Approved(b: Book, v: Version, approval: Approval) {
    v.otaEnabled && v.invoiceTotalTax && approval.wellFormed && approval.reviewed
  }

  ghost function Activate(b: Book, id: Id, now: Time, approval: Option<Approval>): Outcome {
    if b.preparing != map[] then Fail(LockHeld)
    else if id !in b.versions then Fail(NotFound)
    else
      var v := b.versions[id];
      if !v.status.Draft? then Fail(Conflict)
      else if approval.None? && v.invoiceTotalTax then Fail(Conflict)
      else if !v.otaComplete then Fail(Conflict)
      else if approval.None? && v.otaEnabled then Fail(Conflict)
      else if approval.Some?
        && (!Approved(b, v, approval.value) || ActiveVersion(b.versions, now) != Selected(approval.value.base))
      then Fail(Conflict)
      else
        var scheduled := v.from > now;
        if approval.Some? && !scheduled then Fail(Conflict)
        else if scheduled && !v.monthStart then Fail(Conflict)
        else if exists p :: p in b.versions && Published(b.versions[p]) && b.versions[p].from > now then Fail(Conflict)
        else Attach(b, id, now, approval)
  }

  /** The version takes its place in the chain: behind the one open end, or first of all. */
  ghost function Attach(b: Book, id: Id, now: Time, approval: Option<Approval>): Outcome
    requires id in b.versions
  {
    var v := b.versions[id];
    var scheduled := v.from > now;
    var scan := ScanRows(b.versions, Overlapping(b.versions, id, v.from), v.from, scheduled, now);
    if scan.ScanConflict? then Fail(Conflict)
    else if scheduled && scan.id.None? then Fail(Conflict)
    else if scan.id.None? && !Bridges(b.versions, v.from) then Fail(Conflict)
    else if scan.id.None? then Done(b.(versions := b.versions[id := v.(status := Active)]))
    else
      var p := scan.id.value;
      if approval.Some? && p != approval.value.base then Fail(Conflict)
      else if exists i :: i in b.invoices && b.invoices[i].version == p && b.invoices[i].start >= v.from
      then Fail(Conflict)
      else Done(b.(versions := b.versions[p := b.versions[p].(status := Retired, until := Some(v.from))]
                                         [id := v.(status := Active)]))
  }

  function CreateDraft(b: Book, id: Id, v: Version): Outcome {
    if id in b.versions then Fail(Conflict)
    else Done(b.(versions := b.versions[id := v.(status := Draft, until := None)]))
  }

  // ---------------------------------------------------------------- preparing an invoice

  /** From the shared lock to the selected version; a period that already has its invoice needs none. */
  ghost function Select(b: Book, worker: Id, period: Id, start: Time): Outcome {
    if worker in b.preparing then Fail(Conflict)
    else if period in b.invoices then Done(b)
    else
      var sel := ActiveVersion(b.versions, start);
      if sel.NotSelected? then Fail(sel.error)
      else Done(b.(preparing := b.preparing[worker := Preparation(period, start, sel.id)]))
  }

  /** Insert the invoice unless a concurrent attempt did, and release the lock. */
  function Issue(b: Book, worker: Id): Outcome {
    if worker !in b.preparing then Fail(NotFound)
    else
      var p := b.preparing[worker];
      var rest := b.preparing - {worker};
      if p.period in b.invoices then Done(b.(preparing := rest))
      else Done(b.(preparing := rest, invoices := b.invoices[p.period := Invoice(p.start, p.version)]))
  }

  /** Any failure or crash of the worker rolls its transaction back. */
  function Abandon(b: Book, worker: Id): Outcome {
    Done(b.(preparing := b.preparing - {worker}))
  }

  datatype Op =
    | Create(id: Id, version: Version)
    | Publish(id: Id, now: Time, approval: Option<Approval>)
    | Begin(worker: Id, period: Id, start: Time)
    | Finish(worker: Id)
    | Drop(worker: Id)

  ghost function Attempt(b: Book, op: Op): Outcome {
    match op
    case Create(id, v) => CreateDraft(b, id, v)
    case Publish(id, now, approval) => Activate(b, id, now, approval)
    case Begin(w, period, start) => Select(b, w, period, start)
    case Finish(w) => Issue(b, w)
    case Drop(w) => Abandon(b, w)
  }

  ghost function Step(b: Book, op: Op): Book {
    var r := Attempt(b, op);
    if r.Done? then r.book else b
  }

  ghost function Run(b: Book, ops: seq<Op>): Book {
    if |ops| == 0 then b else Step(Run(b, ops[..|ops| - 1]), ops[|ops| - 1])
  }

  const EMPTY: Book := Book(map[], map[], map[])

  // ---------------------------------------------------------------- the chain

  /** Published intervals: one open end, which is the only active version; every ended interval is
      followed by one that starts where it ends; no two overlap. Drafts have no end. */
  ghost predicate ChainLaw(versions: map<Id, Version>) {
    Ends(versions) && Followed(versions) && Disjoint(versions) && OpenEnd(versions)
  }

  ghost predicate Ends(versions: map<Id, Version>) {
    forall p :: p in versions ==> (versions[p].until.Some? <==> versions[p].status.Retired?)
  }

  ghost predicate Followed(versions: map<Id, Version>) {
    forall p :: p in versions && versions[p].status.Retired? && versions[p].until.Some? ==>
      versions[p].from < versions[p].until.value && Starts(versions, versions[p].until.value)
  }

  ghost predicate Disjoint(versions: map<Id, Version>) {
    forall p, q :: p in versions && q in versions && p != q && Published(versions[p]) && Published(versions[q]) ==>
      Apart(versions[p], versions[q])
  }

  ghost predicate OpenEnd(versions: map<Id, Version>) {
    (exists p :: p in versions && Published(versions[p])) ==> exists p :: p in versions && versions[p].status.Active?
  }

  predicate Starts(versions: map<Id, Version>, at: Time) {
    exists q :: q in versions && Published(versions[q]) && versions[q].from == at
  }

  predicate Apart(v: Version, w: Version) {
    || (v.until.Some? && v.until.value <= w.from)
    || (w.until.Some? && w.until.value <= v.from)
  }

  /** So ActivePricingVersion never sees two candidates. */
  lemma AtMostOneCandidate(versions: map<Id, Version>, at: Time)
    requires ChainLaw(versions)
    ensures forall p, q :: p in Candidates(versions, at) && q in Candidates(versions, at) ==> p == q
    ensures ActiveVersion(versions, at) != NotSelected(Conflict)
  {
    forall p, q | p in Candidates(versions, at) && q in Candidates(versions, at) ensures p == q {
      assert p != q ==> Apart(versions[p], versions[q]);
    }
    if Candidates(versions, at) != {} {
      var p :| p in Candidates(versions, at);
      assert Candidates(versions, at) == {p};
    }
  }

  ghost predicate StartedBy(versions: map<Id, Version>, ids: set<Id>, at: Time) {
    ids <= versions.Keys && exists p :: p in ids && Published(versions[p]) && versions[p].from <= at
  }

  /** Among finitely many versions started by a time there is a latest. */
  lemma {:induction false} LatestStarted(versions: map<Id, Version>, ids: set<Id>, at: Time) returns (best: Id)
    requires StartedBy(versions, ids, at)
    ensures best in ids && Published(versions[best]) && versions[best].from <= at
    ensures forall q :: q in ids && Published(versions[q]) && versions[q].from <= at ==>
              versions[q].from <= versions[best].from
    decreases |ids|
  {
    var p :| p in ids && Published(versions[p]) && versions[p].from <= at;
    var rest := ids - {p};
    if StartedBy(versions, rest, at) {
      var b := LatestStarted(versions, rest, at);
      best := if versions[b].from >= versions[p].from then b else p;
    } else {
      best := p;
    }
  }

  /** No gap: from the first published start on, every instant has exactly one version. */
  lemma GaplessSelection(versions: map<Id, Version>, at: Time)
    requires ChainLaw(versions)
    ensures ActiveVersion(versions, at).Selected? <==>
            exists p :: p in versions && Published(versions[p]) && versions[p].from <= at
  {
    AtMostOneCandidate(versions, at);
    if exists p :: p in versions && Published(versions[p]) && versions[p].from <= at {
      var p := LatestStarted(versions, versions.Keys, at);
      assert versions[p].until.Some? ==> Starts(versions, versions[p].until.value);
      assert p in Candidates(versions, at);
    }
  }

  /** The row a successful scan returns is the open end, and there is none only in an empty book; so the
      gap check of the source never decides anything. */
  lemma ScanFindsOpenEnd(versions: map<Id, Version>, id: Id, from: Time, scheduled: bool, now: Time, scan: Scan)
    requires ChainLaw(versions) && id in versions && versions[id].status.Draft?
    requires scan == ScanRows(versions, Overlapping(versions, id, from), from, scheduled, now) && scan.Previous?
    ensures scan.id.None? ==> forall p :: p in versions ==> !Published(versions[p])
    ensures scan.id.Some? ==>
              scan.id.value in versions && versions[scan.id.value].status.Active? && versions[scan.id.value].from < from
    ensures forall p :: p in versions && versions[p].status.Active? ==> scan.id == Some(p)
    ensures scan.id.None? ==> Bridges(versions, from)
  {
    var rows := Overlapping(versions, id, from);
    forall p | p in versions && versions[p].status.Active? ensures p in rows {
      assert versions[p].until.None?;
    }
    if scan.id.Some? {
      assert scan.id.value in rows;
    }
  }

  // ---------------------------------------------------------------- exactly when a version can be published

  /** The version itself is fit: OTA meters complete; on its own it has neither OTA nor tax on the total; with a
      reviewed approval it has both and lies ahead; and whatever lies ahead starts with a month. */
  predicate Fit(v: Version, now: Time, approval: Option<Approval>) {
    && v.status.Draft? && v.otaComplete && (v.from > now ==> v.monthStart)
    && (if approval.None? then !v.invoiceTotalTax && !v.otaEnabled
        else v.invoiceTotalTax && v.otaEnabled && approval.value.wellFormed && approval.value.reviewed && v.from > now)
  }

  /** The open end it would follow: earlier, the approved base if there is an approval, with no invoice from the cut
      on. */
  ghost predicate Followable(b: Book, p: Id, from: Time, approval: Option<Approval>)
    requires p in b.versions
  {
    && b.versions[p].from < from && (approval.Some? ==> approval.value.base == p)
    && forall i :: i in b.invoices && b.invoices[i].version == p ==> b.invoices[i].start < from
  }

  ghost predicate Publishable(b: Book, id: Id, now: Time, approval: Option<Approval>) {
    && b.preparing == map[] && id in b.versions && Fit(b.versions[id], now, approval)
    && (approval.Some? ==>
          && approval.value.base in b.versions && Published(b.versions[approval.value.base])
          && Covers(b.versions[approval.value.base], now))
    && (forall p :: p in b.versions && Published(b.versions[p]) ==> b.versions[p].from <= now)
    && (forall p :: p in b.versions && b.versions[p].status.Active? ==> Followable(b, p, b.versions[id].from, approval))
    && (b.versions[id].from > now ==> exists p :: p in b.versions && b.versions[p].status.Active?)
  }

  /** With nothing published ahead, the row scan succeeds exactly when the open end, if any, starts before the cut. */
  lemma ScanIff(versions: map<Id, Version>, id: Id, from: Time, scheduled: bool, now: Time)
    requires ChainLaw(versions) && id in versions && versions[id].status.Draft?
    requires forall p :: p in versions && Published(versions[p]) ==> versions[p].from <= now
    ensures ScanRows(versions, Overlapping(versions, id, from), from, scheduled, now).Previous?
            <==> forall p :: p in versions && versions[p].status.Active? ==> versions[p].from < from
  {
    var rows := Overlapping(versions, id, from);
    forall p | p in versions && versions[p].status.Active? ensures p in rows { assert versions[p].until.None?; }
    if forall p :: p in versions && versions[p].status.Active? ==> versions[p].from < from {
      forall q | q in rows ensures versions[q].status.Active? { OnlyEndOverlaps(versions, q, from); }
      if rows != {} {
        var p :| p in rows;
        forall q | q in rows ensures q == p { assert !Apart(versions[p], versions[q]); }
        assert rows == {p};
        assert Sole(rows) == Some(p);
      }
    }
  }

  lemma OnlyEndOverlaps(versions: map<Id, Version>, q: Id, from: Time)
    requires ChainLaw(versions) && q in versions && Published(versions[q])
    requires versions[q].until.None? || versions[q].until.value > from
    requires forall p :: p in versions && versions[p].status.Active? ==> versions[p].from < from
    ensures versions[q].status.Active?
  {
    var e :| e in versions && versions[e].status.Active?;
    assert versions[e].until.None?;
    assert q != e ==> Apart(versions[q], versions[e]);
  }

  /** Activation succeeds exactly when the version is publishable. */
  lemma ActivateIff(b: Book, id: Id, now: Time, approval: Option<Approval>)
    requires ChainLaw(b.versions)
    ensures Activate(b, id, now, approval).Done? <==> Publishable(b, id, now, approval)
  {
    if approval.Some? { RatedByMeansCovers(b.versions, now, approval.value.base); }
    hide ChainLaw;
    hide ActiveVersion;
    hide Attach;
    hide Followable;
    if id in b.versions && b.versions[id].status.Draft?
       && forall p :: p in b.versions && Published(b.versions[p]) ==> b.versions[p].from <= now {
      AttachIff(b, id, now, approval);
    }
  }

  lemma AttachIff(b: Book, id: Id, now: Time, approval: Option<Approval>)
    requires ChainLaw(b.versions) && id in b.versions && b.versions[id].status.Draft?
    requires forall p :: p in b.versions && Published(b.versions[p]) ==> b.versions[p].from <= now
    ensures Attach(b, id, now, approval).Done? <==>
            && (forall p :: p in b.versions && b.versions[p].status.Active? ==>
                  Followable(b, p, b.versions[id].from, approval))
            && (b.versions[id].from > now ==> exists p :: p in b.versions && b.versions[p].status.Active?)
  {
    var from, scheduled := b.versions[id].from, b.versions[id].from > now;
    var scan := ScanRows(b.versions, Overlapping(b.versions, id, from), from, scheduled, now);
    ScanIff(b.versions, id, from, scheduled, now);
    if scan.Previous? { ScanFindsOpenEnd(b.versions, id, from, scheduled, now, scan); }
    hide ScanRows;
    hide ChainLaw;
    hide Bridges;
  }

  /** An invoice rated with the open version is for a period that starts before the cut. */
  predicate StartsBefore(versions: map<Id, Version>, inv: Invoice, cut: Time) {
    inv.version in versions && versions[inv.version].status.Active? ==> inv.start < cut
  }

  lemma ActivateKeepsChain(b: Book, id: Id, now: Time, approval: Option<Approval>, t: Book)
    requires ChainLaw(b.versions) && Activate(b, id, now, approval) == Done(t)
    ensures ChainLaw(t.versions)
    ensures t.invoices == b.invoices && t.preparing == b.preparing == map[]
    ensures Extended(b.versions, t.versions, id)
    ensures forall i :: i in b.invoices ==> StartsBefore(b.versions, b.invoices[i], b.versions[id].from)
  {
    var v := b.versions[id];
    var scan := ScanRows(b.versions, Overlapping(b.versions, id, v.from), v.from, v.from > now, now);
    ScanFindsOpenEnd(b.versions, id, v.from, v.from > now, now, scan);
    hide ScanRows;
    hide ActiveVersion;
    hide Bridges;
    ExtendChain(b.versions, t.versions, id);
  }

  /** Ending the open interval where the new one starts keeps the chain. */
  lemma ExtendChain(before: map<Id, Version>, after: map<Id, Version>, id: Id)
    requires ChainLaw(before) && Extended(before, after, id)
    ensures ChainLaw(after)
  {
    ExtendFollowed(before, after, id);
    ExtendDisjoint(before, after, id);
    ExtendEnds(before, after, id);
  }

  /** The new book is the old one with version id published after the open end. */
  ghost predicate Extended(before: map<Id, Version>, after: map<Id, Version>, id: Id) {
    && id in before && before[id].status.Draft? && after.Keys == before.Keys
    && after[id] == before[id].(status := Active)
    && (forall p :: p in before && p != id ==>
          after[p] == if before[p].status.Active? then before[p].(status := Retired, until := Some(before[id].from))
                      else before[p])
    && (forall p :: p in before && before[p].status.Active? ==> before[p].from < before[id].from)
  }

  lemma ExtendEnds(before: map<Id, Version>, after: map<Id, Version>, id: Id)
    requires Ends(before) && Extended(before, after, id)
    ensures Ends(after) && OpenEnd(after)
  {
    assert after[id].status.Active?;
  }

  lemma ExtendFollowed(before: map<Id, Version>, after: map<Id, Version>, id: Id)
    requires Ends(before) && Followed(before) && Extended(before, after, id)
    ensures Followed(after)
  {
    forall p | p in after && after[p].status.Retired?
      ensures after[p].from < after[p].until.value && Starts(after, after[p].until.value)
    {
      if before[p].status.Active? {
        assert after[id].from == before[id].from;
      } else {
        var q :| q in before && Published(before[q]) && before[q].from == before[p].until.value;
        assert after[q].from == before[q].from && Published(after[q]);
      }
    }
  }

  lemma ExtendDisjoint(before: map<Id, Version>, after: map<Id, Version>, id: Id)
    requires Ends(before) && Disjoint(before) && OpenEnd(before) && Extended(before, after, id)
    ensures Disjoint(after)
  {
    forall p | p in before && p != id && Published(before[p]) ensures Apart(after[p], after[id]) {
      if !before[p].status.Active? {
        var e :| e in before && before[e].status.Active?;
        assert Apart(before[p], before[e]);
      }
    }
    forall p, q | p in after && q in after && p != q && Published(after[p]) && Published(after[q])
      ensures Apart(after[p], after[q])
    {
      if p != id && q != id { assert Apart(before[p], before[q]); }
    }
  }

  // ---------------------------------------------------------------- invoices keep their version

  ghost predicate RatedBy(versions: map<Id, Version>, start: Time, id: Id) {
    ActiveVersion(versions, start) == Selected(id)
  }

  /** Every issued invoice, and every invoice being prepared, was rated with the version that is
      effective at its period start in the present book. */
  ghost predicate RatingLaw(b: Book) {
    && (forall i :: i in b.invoices ==> RatedBy(b.versions, b.invoices[i].start, b.invoices[i].version))
    && (forall w :: w in b.preparing ==> RatedBy(b.versions, b.preparing[w].start, b.preparing[w].version))
  }

  lemma RatedByMeansCovers(versions: map<Id, Version>, start: Time, id: Id)
    ensures RatedBy(versions, start, id) ==> id in versions && Published(versions[id]) && Covers(versions[id], start)
    ensures ChainLaw(versions) && id in versions && Published(versions[id]) && Covers(versions[id], start) ==>
              RatedBy(versions, start, id)
  {
    if RatedBy(versions, start, id) {
      assert id in Candidates(versions, start);
    }
    if ChainLaw(versions) && id in versions && Published(versions[id]) && Covers(versions[id], start) {
      AtMostOneCandidate(versions, start);
      assert Candidates(versions, start) == {id};
    }
  }

  lemma ActivateKeepsRating(b: Book, id: Id, now: Time, approval: Option<Approval>, t: Book)
    requires ChainLaw(b.versions) && RatingLaw(b) && Activate(b, id, now, approval) == Done(t)
    ensures RatingLaw(t)
  {
    ActivateKeepsChain(b, id, now, approval, t);
    hide Activate;
    hide ChainLaw;
    hide RatedBy;
    hide Extended;
    forall i | i in t.invoices ensures RatedBy(t.versions, t.invoices[i].start, t.invoices[i].version) {
      RatingSurvives(b.versions, t.versions, id, b.invoices[i]);
    }
  }

  lemma RatingSurvives(before: map<Id, Version>, after: map<Id, Version>, id: Id, inv: Invoice)
    requires ChainLaw(after) && Extended(before, after, id) && RatedBy(before, inv.start, inv.version)
    requires StartsBefore(before, inv, before[id].from)
    ensures RatedBy(after, inv.start, inv.version)
  {
    hide ChainLaw;
    hide RatedBy;
    RatedByMeansCovers(before, inv.start, inv.version);
    RatedByMeansCovers(after, inv.start, inv.version);
  }

  /** Preparing an invoice: what it takes, and what is remembered for the issue. */
  lemma SelectIff(b: Book, w: Id, period: Id, start: Time, id: Id)
    requires ChainLaw(b.versions) && w !in b.preparing && period !in b.invoices
    ensures Select(b, w, period, start) == Done(b.(preparing := b.preparing[w := Preparation(period, start, id)]))
            <==> id in b.versions && Published(b.versions[id]) && Covers(b.versions[id], start)
  {
    RatedByMeansCovers(b.versions, start, id);
    var sel := ActiveVersion(b.versions, start);
    if sel.Selected?
       && Select(b, w, period, start) == Done(b.(preparing := b.preparing[w := Preparation(period, start, id)])) {
      assert b.preparing[w := Preparation(period, start, sel.id)][w] == Preparation(period, start, sel.id);
    }
    hide ActiveVersion;
    hide ChainLaw;
  }

  /** Issuing writes the remembered start and version, once per period, and lets the lock go. */
  lemma IssueIff(b: Book, w: Id)
    ensures Issue(b, w).Done? <==> w in b.preparing
    ensures w in b.preparing ==>
              var p := b.preparing[w]; var t := Issue(b, w).book;
              && w !in t.preparing && t.versions == b.versions && p.period in t.invoices
              && (p.period in b.invoices ==> t.invoices == b.invoices)
              && (p.period !in b.invoices ==> t.invoices == b.invoices[p.period := Invoice(p.start, p.version)])
  { }

  /** A new draft changes no published row. */
  lemma DraftKeepsChain(versions: map<Id, Version>, id: Id, v: Version)
    requires ChainLaw(versions) && id !in versions && v.status.Draft? && v.until.None?
    ensures ChainLaw(versions[id := v])
    ensures forall at :: Candidates(versions[id := v], at) == Candidates(versions, at)
  {
    var t := versions[id := v];
    assert Followed(t) by {
      forall p | p in t && t[p].status.Retired? ensures Starts(t, t[p].until.value) {
        var q :| q in versions && Published(versions[q]) && versions[q].from == versions[p].until.value;
        assert t[q] == versions[q];
      }
    }
    assert OpenEnd(t) by {
      if exists p :: p in t && Published(t[p]) {
        var p :| p in t && Published(t[p]);
        assert p in versions && Published(versions[p]);
        var e :| e in versions && versions[e].status.Active?;
        assert t[e] == versions[e];
      }
    }
  }

  lemma CreateKeepsLaws(b: Book, id: Id, v: Version, t: Book)
    requires ChainLaw(b.versions) && RatingLaw(b) && CreateDraft(b, id, v) == Done(t)
    ensures ChainLaw(t.versions) && RatingLaw(t)
  {
    DraftKeepsChain(b.versions, id, v.(status := Draft, until := None));
    hide ChainLaw;
    hide Candidates;
  }

  lemma StepKeepsLaws(b: Book, op: Op)
    requires ChainLaw(b.versions) && RatingLaw(b)
    ensures ChainLaw(Step(b, op).versions) && RatingLaw(Step(b, op))
  {
    hide Activate;
    hide CreateDraft;
    hide ChainLaw;
    hide Candidates;
    hide Sole;
    if Attempt(b, op).Done? {
      var t := Attempt(b, op).book;
      match op
      case Create(id, v) => CreateKeepsLaws(b, id, v, t);
      case Publish(id, now, approval) =>
        ActivateKeepsChain(b, id, now, approval, t);
        ActivateKeepsRating(b, id, now, approval, t);
      case _ =>
    }
  }

  lemma {:induction false} RunKeepsLaws(ops: seq<Op>)
    ensures ChainLaw(Run(EMPTY, ops).versions) && RatingLaw(Run(EMPTY, ops))
  {
    hide Step;
    if |ops| > 0 {
      RunKeepsLaws(ops[..|ops| - 1]);
      StepKeepsLaws(Run(EMPTY, ops[..|ops| - 1]), ops[|ops| - 1]);
    }
  }

  lemma StepKeepsInvoices(b: Book, op: Op, i: Id)
    requires i in b.invoices
    ensures i in Step(b, op).invoices && Step(b, op).invoices[i] == b.invoices[i]
  {
    hide ActiveVersion;
    hide ScanRows;
    hide Bridges;
  }

  /** Whatever is activated after an invoice was issued, the invoice is still there, unchanged, and the
      version effective at its period start is still the one it was rated with. */
  lemma {:induction false} IssuedInvoiceKeepsItsVersion(before: seq<Op>, after: seq<Op>, i: Id)
    requires i in Run(EMPTY, before).invoices
    ensures var b, t := Run(EMPTY, before), Run(EMPTY, before + after);
            && i in t.invoices && t.invoices[i] == b.invoices[i]
            && ActiveVersion(t.versions, t.invoices[i].start) == Selected(b.invoices[i].version)
  {
    hide Step;
    hide ActiveVersion;
    if |after| > 0 {
      var n := |after| - 1;
      assert (before + after)[..|before + after| - 1] == before + after[..n];
      IssuedInvoiceKeepsItsVersion(before, after[..n], i);
      StepKeepsInvoices(Run(EMPTY, before + after[..n]), after[n], i);
    } else {
      assert before + after == before;
    }
    RunKeepsLaws(before + after);
    hide ChainLaw;
    assert RatedBy(Run(EMPTY, before + after).versions, Run(EMPTY, before + after).invoices[i].start,
                   Run(EMPTY, before + after).invoices[i].version);
  }

  // ---------------------------------------------------------------- a book with two versions and an invoice

  lemma RunNext(b: Book, ops: seq<Op>, op: Op)
    ensures Run(b, ops + [op]) == Step(Run(b, ops), op)
  {
    assert (ops + [op])[..|ops|] == ops;
    hide Step;
  }

  const FIRST: Version := Version(Draft, 0, None, true, false, false, true)
  const SECOND: Version := FIRST.(from := 10)
  const V1: map<Id, Version> := map["v1" := FIRST.(status := Active)]
  const V2: map<Id, Version> := map["v1" := FIRST.(status := Retired, until := Some(10)),
                                    "v2" := SECOND.(status := Active)]
  const BILLED: map<Id, Invoice> := map["p" := Invoice(3, "v1")]

  lemma PublishesFirst()
    ensures Step(Book(map["v1" := FIRST], map[], map[]), Publish("v1", 5, None)) == Book(V1, map[], map[])
  {
    var versions := map["v1" := FIRST];
    assert Overlapping(versions, "v1", 0) == {};
    assert Sole({}).None?;
    assert ScanRows(versions, {}, 0, false, 5) == Previous(None);
  }

  lemma RatesFirst()
    ensures Step(Book(V1, map[], map[]), Begin("w", "p", 3)) == Book(V1, map[], map["w" := Preparation("p", 3, "v1")])
    ensures Step(Book(V1, map[], map["w" := Preparation("p", 3, "v1")]), Finish("w")) == Book(V1, BILLED, map[])
  {
    assert Candidates(V1, 3) == {"v1"};
    assert map["w" := Preparation("p", 3, "v1")] - {"w"} == map[];
  }

  lemma PublishesSecond()
    ensures Step(Book(V1["v2" := SECOND], BILLED, map[]), Publish("v2", 5, None)) == Book(V2, BILLED, map[])
  {
    var versions := V1["v2" := SECOND];
    assert Overlapping(versions, "v2", 10) == {"v1"};
    assert Sole({"v1"}) == Some("v1");
    assert ScanRows(versions, {"v1"}, 10, true, 5) == Previous(Some("v1"));
    assert forall i :: i in BILLED ==> BILLED[i].start == 3;
    var ended := versions["v1"].(status := Retired, until := Some(10));
    assert versions["v1" := ended]["v2" := SECOND.(status := Active)] == V2;
  }

  lemma Drafts()
    ensures Step(EMPTY, Create("v1", FIRST)) == Book(map["v1" := FIRST], map[], map[])
    ensures Step(Book(V1, BILLED, map[]), Create("v2", SECOND)) == Book(V1["v2" := SECOND], BILLED, map[])
  { }

  lemma Selections()
    ensures ActiveVersion(V2, 3) == Selected("v1") && ActiveVersion(V2, 12) == Selected("v2")
  {
    assert Candidates(V2, 3) == {"v1"} && Candidates(V2, 12) == {"v2"};
  }

  /** Publish, bill, schedule a successor: the invoice keeps its version, and later periods get the new one. */
  lemma SuccessorTakesOver() returns (ops: seq<Op>)
    ensures Run(EMPTY, ops) == Book(V2, BILLED, map[])
    ensures ActiveVersion(V2, 3) == Selected("v1") && ActiveVersion(V2, 12) == Selected("v2")
  {
    hide Step;
    hide ActiveVersion;
    Drafts();
    PublishesFirst();
    RatesFirst();
    PublishesSecond();
    Selections();
    assert Run(EMPTY, []) == EMPTY;
    RunNext(EMPTY, [], Create("v1", FIRST));
    ops := [] + [Create("v1", FIRST)];
    hide Run;
    RunNext(EMPTY, ops, Publish("v1", 5, None));
    ops := ops + [Publish("v1", 5, None)];
    RunNext(EMPTY, ops, Begin("w", "p", 3));
    ops := ops + [Begin("w", "p", 3)];
    RunNext(EMPTY, ops, Finish("w"));
    ops := ops + [Finish("w")];
    RunNext(EMPTY, ops, Create("v2", SECOND));
    ops := ops + [Create("v2", SECOND)];
    RunNext(EMPTY, ops, Publish("v2", 5, None));
    ops := ops + [Publish("v2", 5, None)];
  }
}
