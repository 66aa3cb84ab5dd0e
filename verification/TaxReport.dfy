/** The tax collected in a period, by country and currency, over the stored invoices. */
module TaxReport {
  import opened Common
  import opened InvoiceMapper
  import opened Lifecycle

  datatype Group = Group(taxCountry: Option<string>, currency: string)

  datatype Totals = Totals(count: int, net: int, tax: int, gross: int)

  const ZERO := Totals(0, 0, 0, 0)

  datatype Refusal = InvalidDate | EmptyPeriod

  type Report = map<Group, Totals>

  function Plus(a: Totals, b: Totals): Totals {
    Totals(a.count + b.count, a.net + b.net, a.tax + b.tax, a.gross + b.gross)
  }

  function GroupOf(invoice: Invoice): Group { Group(invoice.columns.taxCountry, invoice.columns.currency) }

  /** Paid, and issued in `[from, to)`; an invoice with no issue date is in no period. */
  predicate InPeriod(invoice: Invoice, from: int, to: int) {
    invoice.columns.status.Paid? && invoice.columns.issuedAt.Some? && from <= invoice.columns.issuedAt.value < to
  }

  /** What one row adds to a group. */
  function Share(invoice: Invoice, g: Group, from: int, to: int): Totals {
    if InPeriod(invoice, from, to) && GroupOf(invoice) == g
    then Totals(1, invoice.columns.subtotalMinor, invoice.columns.taxMinor, invoice.columns.totalMinor)
    else ZERO
  }

  /** The sums over the rows of one group. */
  function Tally(invoices: seq<Invoice>, g: Group, from: int, to: int): Totals {
    if invoices == [] then ZERO
    else Plus(Tally(invoices[..|invoices| - 1], g, from, to), Share(invoices[|invoices| - 1], g, from, to))
  }

  function Groups(invoices: seq<Invoice>, from: int, to: int): set<Group> {
    set invoice | invoice in invoices && InPeriod(invoice, from, to) :: GroupOf(invoice)
  }

  /** `SUM … GROUP BY taxCountry, currency`. */
  function Grouped(invoices: seq<Invoice>, from: int, to: int): Report {
    map g | g in Groups(invoices, from, to) :: Tally(invoices, g, from, to)
  }

  function Collected(invoices: seq<Invoice>, from: Option<int>, to: Option<int>): Result<Report, Refusal> {
    if from.None? || to.None? then Err(InvalidDate)
    else if from.value >= to.value then Err(EmptyPeriod)
    else Ok(Grouped(invoices, from.value, to.value))
  }

  // ---------------------------------------------------------------- what a report says

  lemma TallyStep(earlier: seq<Invoice>, last: Invoice, g: Group, from: int, to: int)
    ensures Tally(earlier + [last], g, from, to) == Plus(Tally(earlier, g, from, to), Share(last, g, from, to))
  {
    assert (earlier + [last])[..|earlier|] == earlier;
  }

  ghost predicate Balanced(invoices: seq<Invoice>) {
    forall i :: 0 <= i < |invoices| ==>
      invoices[i].columns.totalMinor == invoices[i].columns.subtotalMinor + invoices[i].columns.taxMinor
  }

  lemma {:induction false} TallyBalances(invoices: seq<Invoice>, g: Group, from: int, to: int)
    requires Balanced(invoices)
    ensures Tally(invoices, g, from, to).gross == Tally(invoices, g, from, to).net + Tally(invoices, g, from, to).tax
  {
    if invoices != [] {
      var earlier, last := invoices[..|invoices| - 1], invoices[|invoices| - 1];
      assert invoices == earlier + [last]
        && last.columns.totalMinor == last.columns.subtotalMinor + last.columns.taxMinor;
      TallyStep(earlier, last, g, from, to);
      assert Balanced(earlier);
      hide Tally, Balanced;
      TallyBalances(earlier, g, from, to);
    }
  }

  /** A paid invoice of the country and currency, issued from the first moment of the period and before its end. */
  ghost predicate Counted(invoice: Invoice, g: Group, from: int, to: int) {
    var c := invoice.columns;
    && c.status == Paid && c.taxCountry == g.taxCountry && c.currency == g.currency
    && (match c.issuedAt case Some(at) => from <= at && at < to case None => false)
  }

  function Sum(amounts: seq<int>): int {
    if amounts == [] then 0 else Sum(amounts[..|amounts| - 1]) + amounts[|amounts| - 1]
  }

  ghost function CountedRows(invoices: seq<Invoice>, g: Group, from: int, to: int): set<nat> {
    set i: nat | i < |invoices| && Counted(invoices[i], g, from, to)
  }

  /** One amount of each invoice counted, and nothing of any other. */
  ghost function Amounts(
    invoices: seq<Invoice>, g: Group, from: int, to: int, amount: Columns -> int): (r: seq<int>)
    ensures |r| == |invoices|
  {
    seq(|invoices|, i requires 0 <= i < |invoices| =>
      if Counted(invoices[i], g, from, to) then amount(invoices[i].columns) else 0)
  }

  lemma {:induction false} SumStep(
    earlier: seq<Invoice>, last: Invoice, g: Group, from: int, to: int, amount: Columns -> int)
    ensures Sum(Amounts(earlier + [last], g, from, to, amount))
         == Sum(Amounts(earlier, g, from, to, amount)) + if Counted(last, g, from, to) then amount(last.columns) else 0
  {
    var all := Amounts(earlier + [last], g, from, to, amount);
    assert all[..|all| - 1] == Amounts(earlier, g, from, to, amount);
  }

  lemma {:induction false} CountStep(earlier: seq<Invoice>, last: Invoice, g: Group, from: int, to: int)
    ensures |CountedRows(earlier + [last], g, from, to)|
         == |CountedRows(earlier, g, from, to)| + if Counted(last, g, from, to) then 1 else 0
  {
    var all, before := CountedRows(earlier + [last], g, from, to), CountedRows(earlier, g, from, to);
    assert all == before + if Counted(last, g, from, to) then {|earlier|} else {};
  }

  /** A tally counts the group's rows and adds up their own net, tax and gross. */
  lemma {:induction false} TallyByColumns(invoices: seq<Invoice>, g: Group, from: int, to: int)
    ensures var tally := Tally(invoices, g, from, to);
      && tally.count == |CountedRows(invoices, g, from, to)|
      && tally.net == Sum(Amounts(invoices, g, from, to, (c: Columns) => c.subtotalMinor))
      && tally.tax == Sum(Amounts(invoices, g, from, to, (c: Columns) => c.taxMinor))
      && tally.gross == Sum(Amounts(invoices, g, from, to, (c: Columns) => c.totalMinor))
  {
    if invoices == [] {
      assert CountedRows([], g, from, to) == {};
    } else {
      var earlier, last := invoices[..|invoices| - 1], invoices[|invoices| - 1];
      assert invoices == earlier + [last];
      TallyByColumns(earlier, g, from, to);
      TallyStep(earlier, last, g, from, to);
      CountStep(earlier, last, g, from, to);
      SumStep(earlier, last, g, from, to, (c: Columns) => c.subtotalMinor);
      SumStep(earlier, last, g, from, to, (c: Columns) => c.taxMinor);
      SumStep(earlier, last, g, from, to, (c: Columns) => c.totalMinor);
      hide Tally, Sum, Amounts, CountedRows;
    }
  }

  /** What the report of a period says of a group, and when a period is refused. */
  lemma {:induction false} CollectedByColumns(invoices: seq<Invoice>, from: Option<int>, to: Option<int>, g: Group)
    ensures match Collected(invoices, from, to)
      case Err(InvalidDate) => from.None? || to.None?
      case Err(EmptyPeriod) => from.Some? && to.Some? && from.value >= to.value
      case Ok(report) =>
        && from.Some? && to.Some? && from.value < to.value
        && (g in report <==> exists i :: 0 <= i < |invoices| && Counted(invoices[i], g, from.value, to.value))
        && (g in report ==> report[g] == Tally(invoices, g, from.value, to.value))
  {
    hide Tally;
    if Collected(invoices, from, to).Ok? {
      var report := Collected(invoices, from, to).value;
      if g in report {
        var x :| x in invoices && InPeriod(x, from.value, to.value) && GroupOf(x) == g;
        var i :| 0 <= i < |invoices| && invoices[i] == x;
        assert Counted(invoices[i], g, from.value, to.value);
      }
      if i :| 0 <= i < |invoices| && Counted(invoices[i], g, from.value, to.value) {
        assert invoices[i] in invoices && InPeriod(invoices[i], from.value, to.value) && GroupOf(invoices[i]) == g;
      }
    }
  }

  lemma PlusLaws(a: Totals, b: Totals, c: Totals, d: Totals)
    ensures Plus(a, ZERO) == a && Plus(ZERO, a) == a
    ensures Plus(Plus(a, b), Plus(c, d)) == Plus(Plus(a, c), Plus(b, d))
  {
  }

  predicate Empty(t: Totals) { t.count == 0 && t.net == 0 && t.tax == 0 && t.gross == 0 }

  lemma PlusCounts(a: Totals, b: Totals)
    requires (Empty(a) || a.count > 0) && (Empty(b) || b.count > 0)
    ensures Empty(a) && Empty(b) ==> Empty(Plus(a, b))
    ensures a.count > 0 || b.count > 0 ==> Plus(a, b).count > 0
  {
  }

  lemma ShareCounts(invoice: Invoice, g: Group, from: int, to: int)
    ensures var share := Share(invoice, g, from, to);
      if InPeriod(invoice, from, to) && GroupOf(invoice) == g then share.count == 1 else Empty(share)
  {
  }

  lemma NothingTallied(g: Group, from: int, to: int)
    ensures Groups([], from, to) == {} && Empty(Tally([], g, from, to))
  {
  }

  /** A group is reported exactly when some row of the period belongs to it. */
  lemma {:induction false} TallyCounts(invoices: seq<Invoice>, g: Group, from: int, to: int)
    ensures var tally := Tally(invoices, g, from, to);
      if g in Groups(invoices, from, to) then tally.count > 0 else Empty(tally)
  {
    hide Tally, Groups, GroupOf, InPeriod, Share, Plus, Empty;
    NothingTallied(g, from, to);
    if invoices != [] {
      var earlier, last := invoices[..|invoices| - 1], invoices[|invoices| - 1];
      assert invoices == earlier + [last];
      TallyStep(earlier, last, g, from, to);
      GroupsGrow(earlier, last, from, to);
      TallyCounts(earlier, g, from, to);
      ShareCounts(last, g, from, to);
      PlusCounts(Tally(earlier, g, from, to), Share(last, g, from, to));
    }
  }

  lemma GroupsGrow(earlier: seq<Invoice>, last: Invoice, from: int, to: int)
    ensures Groups(earlier + [last], from, to)
         == Groups(earlier, from, to) + (if InPeriod(last, from, to) then {GroupOf(last)} else {})
  {
    var all := earlier + [last];
    assert last in all && forall x :: x in all <==> x in earlier || x == last;
    forall g | g in Groups(earlier, from, to) ensures g in Groups(all, from, to) {
      var x :| x in earlier && InPeriod(x, from, to) && GroupOf(x) == g;
      assert x in all;
    }
  }

  /** Whatever events were delivered, and however often: gross is net plus tax in every row reported. */
  lemma {:induction false} ReportedRowsBalance(s: Store, prices: seq<Price>, events: seq<Event>, from: int, to: int,
    g: Group)
    requires InvoicesOk(s.invoices) && from < to
    ensures var report := Collected(Run(s, prices, events).invoices, Some(from), Some(to));
      report.Ok? && (g in report.value ==>
        report.value[g].count > 0 && report.value[g].gross == report.value[g].net + report.value[g].tax)
  {
    InvoicesBalance(s, prices, events);
    TallyBalances(Run(s, prices, events).invoices, g, from, to);
    TallyCounts(Run(s, prices, events).invoices, g, from, to);
  }

  /** A redelivered paid invoice is not reported twice. */
  lemma {:induction false} ReplayReportsNothing(s: Store, prices: seq<Price>, e: Event, from: Option<int>,
    to: Option<int>)
    requires InvoicesOk(s.invoices) && KindOf(e.name).InvoicePaid?
    ensures var once := Step(s, prices, e).0;
      Collected(Step(once, prices, e).0.invoices, from, to) == Collected(once.invoices, from, to)
  {
    ReplayStoresNothing(s, prices, e);
  }

  // ---------------------------------------------------------------- consecutive periods

  function RowOf(report: Report, g: Group): Totals { if g in report then report[g] else ZERO }

  /** Two reports added up, group by group. */
  function Joined(a: Report, b: Report): Report {
    map g | g in a.Keys + b.Keys :: Plus(RowOf(a, g), RowOf(b, g))
  }

  lemma ShareSplits(invoice: Invoice, g: Group, a: int, b: int, c: int)
    requires a < b < c
    ensures Share(invoice, g, a, c) == Plus(Share(invoice, g, a, b), Share(invoice, g, b, c))
  {
    hide Plus;
    PlusLaws(Share(invoice, g, a, c), ZERO, ZERO, ZERO);
    PlusLaws(ZERO, ZERO, ZERO, ZERO);
    if InPeriod(invoice, a, b) {
      assert InPeriod(invoice, a, c) && !InPeriod(invoice, b, c);
    } else {
      assert InPeriod(invoice, a, c) <==> InPeriod(invoice, b, c);
    }
  }

  lemma {:induction false} TallyAdds(invoices: seq<Invoice>, g: Group, a: int, b: int, c: int)
    requires a < b < c
    ensures Tally(invoices, g, a, c) == Plus(Tally(invoices, g, a, b), Tally(invoices, g, b, c))
  {
    if invoices != [] {
      hide Tally, Share, Plus;
      var earlier, last := invoices[..|invoices| - 1], invoices[|invoices| - 1];
      assert invoices == earlier + [last];
      TallyStep(earlier, last, g, a, b);
      TallyStep(earlier, last, g, b, c);
      TallyStep(earlier, last, g, a, c);
      ShareSplits(last, g, a, b, c);
      PlusLaws(Tally(earlier, g, a, b), Tally(earlier, g, b, c), Share(last, g, a, b), Share(last, g, b, c));
      TallyAdds(earlier, g, a, b, c);
    }
  }

  /** Consecutive periods neither overlap nor leave a gap: their reports add up to the whole period's. */
  lemma {:induction false} ConsecutivePeriodsAdd(invoices: seq<Invoice>, a: int, b: int, c: int)
    requires a < b < c
    ensures var whole, first, second := Collected(invoices, Some(a), Some(c)), Collected(invoices, Some(a), Some(b)),
                                        Collected(invoices, Some(b), Some(c));
      whole.Ok? && first.Ok? && second.Ok? && whole.value == Joined(first.value, second.value)
  {
    var whole, first, second := Grouped(invoices, a, c), Grouped(invoices, a, b), Grouped(invoices, b, c);
    PeriodsSplit(invoices, a, b, c);
    forall g | g in whole ensures whole[g] == Plus(RowOf(first, g), RowOf(second, g)) {
      TallyAdds(invoices, g, a, b, c);
      TallyCounts(invoices, g, a, b);
      TallyCounts(invoices, g, b, c);
    }
    assert whole.Keys == first.Keys + second.Keys;
  }

  lemma PeriodsSplit(invoices: seq<Invoice>, a: int, b: int, c: int)
    requires a < b < c
    ensures Groups(invoices, a, c) == Groups(invoices, a, b) + Groups(invoices, b, c)
  {
    forall g | g in Groups(invoices, a, c) ensures g in Groups(invoices, a, b) + Groups(invoices, b, c) {
      var x :| x in invoices && InPeriod(x, a, c) && GroupOf(x) == g;
      assert InPeriod(x, a, b) || InPeriod(x, b, c);
    }
    forall g | g in Groups(invoices, a, b) + Groups(invoices, b, c) ensures g in Groups(invoices, a, c) {
      if g in Groups(invoices, a, b) {
        var x :| x in invoices && InPeriod(x, a, b) && GroupOf(x) == g;
        assert InPeriod(x, a, c);
      } else {
        var x :| x in invoices && InPeriod(x, b, c) && GroupOf(x) == g;
        assert InPeriod(x, a, c);
      }
    }
  }
}
