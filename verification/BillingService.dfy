/** ClosePeriod as the program it is: three store transactions in a row, any prefix of which may be all that
    happens. An attempt that returns an invoice has settled it, with its one debit. */
module BillingService {
  import opened Common
  import opened Account
  import opened PeriodClose

  /** How far an attempt gets before its process dies. */
  datatype Fate = DiesAfterInvoice | DiesAfterDebit | Finishes

  class Service {
    var account: State
    var periods: map<Id, PeriodState>
    var invoices: seq<PeriodClose.Invoice>
    ghost var closers: map<Id, Pc>
    ghost const origin: State
    ghost var history: seq<PeriodClose.Op>

    ghost function View(): World
      reads this
    {
      World(account, periods, invoices, closers)
    }

    ghost predicate Valid()
      reads this
    {
      Init(origin) && View() == PeriodClose.Run(origin, history)
    }

    constructor (s: State)
      requires Init(s)
      ensures Valid() && account == s && history == []
    {
      account, periods, invoices := s, map[], [];
      closers, history, origin := map[], [], s;
      new;
      hide Account.Step;
    }

    ghost method Remember(before: World, op: PeriodClose.Op)
      requires Init(origin) && before == PeriodClose.Run(origin, history) && View() == PeriodClose.Step(before, op)
      modifies this`history
      ensures Valid() && history == old(history) + [op]
    {
      hide Init;
      RunNext(origin, history, op);
      hide PeriodClose.Run;
      hide PeriodClose.Step;
      history := history + [op];
    }

    /** The existing invoice, or a new one together with the closed period. */
    method PrepareInvoice(period: Id, rating: Rating, newId: string) returns (k: Option<nat>)
      modifies this`periods, this`invoices
      ensures var r := PeriodClose.PrepareInvoice(old(View()), period, rating, newId);
              View() == r.0 && k == r.1
    {
      hide TakenId;
      var saved := periods;
      if period !in periods || !periods[period].PeriodClosed? { periods := periods[period := PeriodClosing]; }
      k := FindInvoice(invoices, period);
      if k.Some? { return; }
      if rating.RolledBack? || periods[period].PeriodClosed? {
        periods := saved;
        return None;
      }
      if rating.Unratable? {
        periods := periods[period := PeriodIncomplete];
        return None;
      }
      if rating.total < 0 || rating.total > MAX_INT64 || TakenId(invoices, newId) {
        periods := saved;
        return None;
      }
      invoices := invoices + [PeriodClose.Invoice(newId, period, rating.total, Issued, None)];
      periods := periods[period := PeriodClosed];
      return Some(|invoices| - 1);
    }

    method RecordInvoiceSettlement(k: nat, ledgerId: Option<nat>)
      requires k < |invoices|
      modifies this`invoices
      ensures View() == PeriodClose.RecordInvoiceSettlement(old(View()), k, ledgerId)
    {
      var inv := invoices[k];
      if inv.link.None? { inv := inv.(link := ledgerId); }
      invoices := invoices[k := inv.(state := Settled)];
    }

    method PrepareStage(ghost c: Id, period: Id, rating: Rating, newId: string) returns (k: Option<nat>)
      requires Valid()
      modifies this
      ensures Valid() && history == old(history) + [PeriodClose.Op.Prepare(c, period, rating, newId)]
      ensures k.Some? ==> k.value < |invoices| && invoices[k.value].period == period
      ensures k.Some? ==> c in closers && closers[c] == Drafted(k.value, invoices[k.value])
    {
      hide PeriodClose.Run;
      hide PeriodClose.PrepareInvoice;
      hide Init;
      ghost var before := View();
      PreparedPeriod(before, period, rating, newId);
      k := PrepareInvoice(period, rating, newId);
      closers := closers[c := if k.None? then Pc.Idle else Drafted(k.value, invoices[k.value])];
      Remember(before, PeriodClose.Op.Prepare(c, period, rating, newId));
    }

    /** Posts the debit unless the invoice needs none or already has one. */
    method DebitStage(ghost c: Id, k: nat, seen: PeriodClose.Invoice, now: Time, via: Method)
      returns (ok: bool, ledgerId: Option<nat>)
      requires Valid() && c in closers && closers[c] == Drafted(k, seen)
      modifies this
      ensures Valid() && history == old(history) + [PostDebit(c, now, via)] && invoices == old(invoices)
      ensures ok ==> c in closers && closers[c] == Debited(k, seen, ledgerId)
    {
      hide PeriodClose.Run;
      hide Account.PostLedgerEntry;
      hide FindEntry;
      hide Init;
      ghost var before := View();
      ok, ledgerId := true, seen.link;
      if seen.total > 0 && ledgerId.None? {
        var posted := Account.PostLedgerEntry(account, DebitOf(seen, now, via));
        ok := posted.Done?;
        if ok {
          account := posted.state;
          ledgerId := FindEntry(account.funds.ledger, KeyOf(seen));
        }
      }
      closers := closers[c := if ok then Debited(k, seen, ledgerId) else Pc.Idle];
      Remember(before, PostDebit(c, now, via));
    }

    method RecordStage(ghost c: Id, k: nat, seen: PeriodClose.Invoice, ledgerId: Option<nat>)
      requires Valid() && c in closers && closers[c] == Debited(k, seen, ledgerId) && k < |invoices|
      modifies this
      ensures Valid() && history == old(history) + [Record(c)] && |invoices| == |old(invoices)|
      ensures invoices[k].period == old(invoices)[k].period
      ensures seen.state.Settled? && !(seen.link.None? && ledgerId.Some?) ==> invoices == old(invoices)
      ensures !seen.state.Settled? || (seen.link.None? && ledgerId.Some?) ==> invoices[k].state.Settled?
    {
      hide PeriodClose.Run;
      hide Init;
      ghost var before := View();
      if !seen.state.Settled? || (seen.link.None? && ledgerId.Some?) {
        RecordInvoiceSettlement(k, ledgerId);
      }
      closers := closers[c := Pc.Idle];
      Remember(before, Record(c));
    }

    /** One attempt. If it returns an invoice, that is the period's only invoice, it is settled, and a positive
        total has exactly its debit in the ledger, however many attempts died before. */
    method ClosePeriod(ghost c: Id, period: Id, rating: Rating, newId: string, now: Time, via: Method, fate: Fate)
      returns (r: Option<nat>)
      requires Valid()
      modifies this
      ensures Valid() && old(history) <= history
      ensures r.Some? ==> fate.Finishes? && r.value < |invoices| && invoices[r.value].period == period
      ensures r.Some? ==> invoices[r.value].state.Settled? && SettledOnceAt(View(), r.value)
    {
      hide PeriodClose.Run;
      hide SettledOnceAt;
      hide Init;
      var k := PrepareStage(c, period, rating, newId);
      if k.None? || fate.DiesAfterInvoice? { return None; }
      var seen := invoices[k.value];
      var ok, ledgerId := DebitStage(c, k.value, seen, now, via);
      if !ok || fate.DiesAfterDebit? { return None; }
      RecordStage(c, k.value, seen, ledgerId);
      SettledOnce(origin, history, k.value);
      return k;
    }
  }

  lemma PreparedPeriod(w: World, period: Id, rating: Rating, newId: string)
    ensures var r := PeriodClose.PrepareInvoice(w, period, rating, newId);
            r.1.Some? ==> r.0.invoices[r.1.value].period == period
  { }
}
