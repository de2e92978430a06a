/** The reporting side of the application: the inclusive date-range filter
    over the transaction log and the financial summary aggregated from the
    filtered transactions. Neither reads the inventory. */
module Report {
  import opened Wrappers
  import opened Types
  import opened Seqs

  const DayMs: int := 86_400_000

  /** The last millisecond (23:59:59.999) of the local calendar day that
      contains `d`, for a local clock `tz` milliseconds ahead of UTC. */
  function EndOfDay(d: Time, tz: int): (r: Time)
    ensures d <= r < d + DayMs
    ensures (r + tz) % DayMs == DayMs - 1
    ensures (r + tz) / DayMs == (d + tz) / DayMs
  {
    var day := (d + tz) / DayMs;
    assert d + tz == day * DayMs + (d + tz) % DayMs;
    var r := day * DayMs + DayMs - 1 - tz;
    assert r + tz == day * DayMs + (DayMs - 1);
    r
  }

  /** Whether a timestamp passes the filter: at or after `start` when one is
      set, and at or before the end of `end`'s day when one is set. */
  predicate InRange(ts: Time, start: Option<Time>, end: Option<Time>, tz: int) {
    && (start.None? || ts >= start.value)
    && (end.None? || ts <= EndOfDay(end.value, tz))
  }

  /** The transactions of the log inside the date range, in log order. */
  function Filter(log: seq<Transaction>, start: Option<Time>, end: Option<Time>, tz: int): (r: seq<Transaction>)
    ensures |r| <= |log|
    ensures IsSubsequence(r, log)
    ensures forall t :: t in r <==> t in log && InRange(t.timestamp, start, end, tz)
  {
    if log == [] then []
    else
      var rest := Filter(log[1..], start, end, tz);
      assert forall t :: t in log <==> t == log[0] || t in log[1..];
      if InRange(log[0].timestamp, start, end, tz) then
        assert ([log[0]] + rest)[1..] == rest;
        [log[0]] + rest
      else rest
  }

  /** The filter keeps every copy of a transaction inside the range and no
      copy of one outside it. */
  lemma {:induction false} FilterCount(log: seq<Transaction>, start: Option<Time>, end: Option<Time>, tz: int)
    ensures forall t :: multiset(Filter(log, start, end, tz))[t]
                     == if InRange(t.timestamp, start, end, tz) then multiset(log)[t] else 0
  {
    if log != [] {
      FilterCount(log[1..], start, end, tz);
      assert log == [log[0]] + log[1..];
      var rest := Filter(log[1..], start, end, tz);
      if InRange(log[0].timestamp, start, end, tz) {
        assert Filter(log, start, end, tz) == [log[0]] + rest;
      }
    }
  }

  /** With neither bound set, the filter keeps the whole log. */
  lemma {:induction false} FilterUnbounded(log: seq<Transaction>, tz: int)
    ensures Filter(log, None, None, tz) == log
  {
    if log != [] {
      FilterUnbounded(log[1..], tz);
    }
  }

  /** Filtering twice with the same bounds is filtering once. */
  lemma {:induction false} FilterIdempotent(log: seq<Transaction>, start: Option<Time>, end: Option<Time>, tz: int)
    ensures Filter(Filter(log, start, end, tz), start, end, tz) == Filter(log, start, end, tz)
  {
    if log != [] {
      FilterIdempotent(log[1..], start, end, tz);
      var rest := Filter(log[1..], start, end, tz);
      if InRange(log[0].timestamp, start, end, tz) {
        assert ([log[0]] + rest)[1..] == rest;
      }
    }
  }

  /** The end bound is inclusive to the millisecond: a transaction stamped
      at 23:59:59.999 of the end day passes, one a millisecond later does
      not, and one stamped exactly at the end date itself passes. */
  lemma EndBoundary(end: Time, start: Option<Time>, tz: int)
    requires start.None? || start.value <= end
    ensures InRange(EndOfDay(end, tz), start, Some(end), tz)
    ensures InRange(end, start, Some(end), tz)
    ensures !InRange(EndOfDay(end, tz) + 1, start, Some(end), tz)
  {
  }

  /** Σ amount. */
  function SumAmount(txns: seq<Transaction>): Money {
    if txns == [] then 0 else txns[0].amount + SumAmount(txns[1..])
  }

  /** Σ cogs, a missing cogs counting as 0. */
  function SumCogs(txns: seq<Transaction>): Money {
    if txns == [] then 0 else txns[0].cogs.GetOr(0) + SumCogs(txns[1..])
  }

  /** The transactions of one kind, in order. */
  function OfKind(txns: seq<Transaction>, k: TransactionType): (r: seq<Transaction>)
    ensures IsSubsequence(r, txns)
    ensures forall t :: t in r <==> t in txns && t.kind == k
    ensures forall t :: multiset(r)[t] == if t.kind == k then multiset(txns)[t] else 0
  {
    if txns == [] then []
    else
      var rest := OfKind(txns[1..], k);
      assert forall t :: t in txns <==> t == txns[0] || t in txns[1..];
      assert txns == [txns[0]] + txns[1..];
      if txns[0].kind == k then
        assert ([txns[0]] + rest)[1..] == rest;
        [txns[0]] + rest
      else rest
  }

  /** A figure of the summary, as what each transaction contributes to
      it: the amount of every transaction of one kind, or the cogs of every
      sale with a missing cogs counting as 0. */
  datatype Measure = AmountOf(kind: TransactionType) | SaleCogs

  function Weight(t: Transaction, m: Measure): Money {
    match m
    case AmountOf(k) => if t.kind == k then t.amount else 0
    case SaleCogs => if t.kind == Sale then t.cogs.GetOr(0) else 0
  }

  /** Reference definition: a figure summed in one pass over the list. */
  function Total(txns: seq<Transaction>, m: Measure): Money {
    if txns == [] then 0 else Weight(txns[0], m) + Total(txns[1..], m)
  }

  /** Reference definition for a date range: a figure summed in one pass
      over the transactions of the log that fall inside the range. */
  function RangeTotal(log: seq<Transaction>, m: Measure, start: Option<Time>, end: Option<Time>, tz: int): Money {
    if log == [] then 0
    else (if InRange(log[0].timestamp, start, end, tz) then Weight(log[0], m) else 0)
         + RangeTotal(log[1..], m, start, end, tz)
  }

  lemma {:induction false} SumOfKind(txns: seq<Transaction>, k: TransactionType)
    ensures SumAmount(OfKind(txns, k)) == Total(txns, AmountOf(k))
  {
    if txns != [] {
      SumOfKind(txns[1..], k);
      if txns[0].kind == k {
        assert ([txns[0]] + OfKind(txns[1..], k))[1..] == OfKind(txns[1..], k);
      }
    }
  }

  lemma {:induction false} CogsOfSales(txns: seq<Transaction>)
    ensures SumCogs(OfKind(txns, Sale)) == Total(txns, SaleCogs)
  {
    if txns != [] {
      CogsOfSales(txns[1..]);
      if txns[0].kind == Sale {
        assert ([txns[0]] + OfKind(txns[1..], Sale))[1..] == OfKind(txns[1..], Sale);
      }
    }
  }

  /** The figures shown on the dashboard and in the report. */
  datatype Summary = Summary(
    revenue: Money,
    cogs: Money,
    totalOutflows: Money,
    grossProfit: Money,
    netProfit: Money,
    operatingExpenses: Money)

  /** The summary of a list of transactions: revenue and cogs from sales,
      operating expenses from expenses, outflows from expenses and
      purchases; adjustments count for nothing. */
  function FinancialSummary(txns: seq<Transaction>): (s: Summary)
    ensures s.revenue == Total(txns, AmountOf(Sale))
    ensures s.cogs == Total(txns, SaleCogs)
    ensures s.operatingExpenses == Total(txns, AmountOf(Expense))
    ensures s.totalOutflows == Total(txns, AmountOf(Expense)) + Total(txns, AmountOf(Purchase))
    ensures s.grossProfit == s.revenue - s.cogs
    ensures s.netProfit == s.grossProfit - s.operatingExpenses
  {
    SumOfKind(txns, Sale);
    SumOfKind(txns, Expense);
    SumOfKind(txns, Purchase);
    CogsOfSales(txns);
    var revenue := SumAmount(OfKind(txns, Sale));
    var cogs := SumCogs(OfKind(txns, Sale));
    var operatingExpenses := SumAmount(OfKind(txns, Expense));
    var purchases := SumAmount(OfKind(txns, Purchase));
    var totalOutflows := operatingExpenses + purchases;
    var grossProfit := revenue - cogs;
    var netProfit := grossProfit - operatingExpenses;
    Summary(revenue, cogs, totalOutflows, grossProfit, netProfit, operatingExpenses)
  }

  /** Summing a figure over the filtered log is summing it over the
      transactions of the log that fall inside the range. */
  lemma {:induction false} FilterTotal(log: seq<Transaction>, m: Measure, start: Option<Time>, end: Option<Time>, tz: int)
    ensures Total(Filter(log, start, end, tz), m) == RangeTotal(log, m, start, end, tz)
  {
    if log != [] {
      FilterTotal(log[1..], m, start, end, tz);
      var rest := Filter(log[1..], start, end, tz);
      if InRange(log[0].timestamp, start, end, tz) {
        assert ([log[0]] + rest)[1..] == rest;
      }
    }
  }

  /** The summary the dashboard shows for a date range: every figure is
      taken over the transactions inside the range only, and with no range
      set it is the summary of the whole log. */
  function SummaryFor(log: seq<Transaction>, start: Option<Time>, end: Option<Time>, tz: int): (r: Summary)
    ensures r.revenue == RangeTotal(log, AmountOf(Sale), start, end, tz)
    ensures r.cogs == RangeTotal(log, SaleCogs, start, end, tz)
    ensures r.operatingExpenses == RangeTotal(log, AmountOf(Expense), start, end, tz)
    ensures r.totalOutflows
         == RangeTotal(log, AmountOf(Expense), start, end, tz) + RangeTotal(log, AmountOf(Purchase), start, end, tz)
    ensures r.grossProfit == r.revenue - r.cogs
    ensures r.netProfit == r.grossProfit - r.operatingExpenses
    ensures start.None? && end.None? ==> r == FinancialSummary(log)
  {
    FilterTotal(log, AmountOf(Sale), start, end, tz);
    FilterTotal(log, SaleCogs, start, end, tz);
    FilterTotal(log, AmountOf(Expense), start, end, tz);
    FilterTotal(log, AmountOf(Purchase), start, end, tz);
    assert start.None? && end.None? ==> Filter(log, start, end, tz) == log by {
      if start.None? && end.None? {
        FilterUnbounded(log, tz);
      }
    }
    FinancialSummary(Filter(log, start, end, tz))
  }

  lemma {:induction false} TotalAppend(a: seq<Transaction>, b: seq<Transaction>, m: Measure)
    ensures Total(a + b, m) == Total(a, m) + Total(b, m)
  {
    if a == [] {
      assert a + b == b;
    } else {
      assert (a + b)[1..] == a[1..] + b;
      TotalAppend(a[1..], b, m);
    }
  }

  /** The totals depend only on which transactions there are, not on their
      order: any rearrangement of the list gives the same summary. */
  lemma SummaryOrderIndependent(a: seq<Transaction>, b: seq<Transaction>)
    requires multiset(a) == multiset(b)
    ensures FinancialSummary(a) == FinancialSummary(b)
  {
    forall m: Measure ensures Total(a, m) == Total(b, m) {
      TotalPermutation(a, b, m);
    }
  }

  lemma {:induction false} TotalPermutation(a: seq<Transaction>, b: seq<Transaction>, m: Measure)
    requires multiset(a) == multiset(b)
    ensures Total(a, m) == Total(b, m)
    decreases |a|
  {
    if a == [] {
      assert |b| == |multiset(b)| == 0;
    } else {
      assert a[0] in multiset(b);
      var i :| 0 <= i < |b| && b[i] == a[0];
      var rest := b[..i] + b[i + 1..];
      assert b == b[..i] + [b[i]] + b[i + 1..];
      assert a == [a[0]] + a[1..];
      assert multiset(b) == multiset(b[..i]) + multiset([b[i]]) + multiset(b[i + 1..]);
      assert multiset(a) == multiset([a[0]]) + multiset(a[1..]);
      assert multiset(rest) == multiset(b[..i]) + multiset(b[i + 1..]);
      calc {
        multiset(a[1..]);
        multiset(a) - multiset([a[0]]);
        multiset(b) - multiset([b[i]]);
        multiset(rest);
      }
      TotalPermutation(a[1..], rest, m);
      TotalAppend(b[..i] + [b[i]], b[i + 1..], m);
      TotalAppend(b[..i], [b[i]], m);
      TotalAppend(b[..i], b[i + 1..], m);
      TotalAppend([a[0]], a[1..], m);
    }
  }

  /** A stock adjustment never moves any figure of the summary. */
  lemma AdjustmentInvisible(t: Transaction, txns: seq<Transaction>)
    requires t.kind == Adjustment
    ensures FinancialSummary([t] + txns) == FinancialSummary(txns)
  {
    assert ([t] + txns)[1..] == txns;
  }

  /** Over well-formed transactions, revenue, cogs, operating expenses and
      outflows are never negative. */
  lemma SummarySigns(txns: seq<Transaction>)
    requires forall i :: 0 <= i < |txns| ==> WellFormed(txns[i])
    ensures FinancialSummary(txns).revenue >= 0
    ensures FinancialSummary(txns).cogs >= 0
    ensures FinancialSummary(txns).operatingExpenses >= 0
    ensures FinancialSummary(txns).totalOutflows >= 0
  {
    forall m: Measure ensures Total(txns, m) >= 0 {
      TotalNonNegative(txns, m);
    }
  }

  /** A well-formed transaction contributes nothing negative to any figure. */
  lemma {:induction false} TotalNonNegative(txns: seq<Transaction>, m: Measure)
    requires forall i :: 0 <= i < |txns| ==> WellFormed(txns[i])
    ensures Total(txns, m) >= 0
  {
    if txns != [] {
      assert WellFormed(txns[0]);
      TotalNonNegative(txns[1..], m);
    }
  }

  /** A sale of 100 with cogs 40, a purchase of 30 and an expense of 10. */
  lemma WorkedSummary(s: Transaction, p: Transaction, e: Transaction)
    requires s.kind == Sale && s.amount == 100 && s.cogs == Some(40)
    requires p.kind == Purchase && p.amount == 30
    requires e.kind == Expense && e.amount == 10
    ensures FinancialSummary([s, p, e]) == Summary(100, 40, 40, 60, 50, 10)
  {
    var txns := [s, p, e];
    assert txns[1..] == [p, e] && [p, e][1..] == [e] && [e][1..] == [];
    forall m: Measure ensures Total(txns, m) == Weight(s, m) + Weight(p, m) + Weight(e, m) {
      assert Total([e], m) == Weight(e, m) + Total([], m);
      assert Total([p, e], m) == Weight(p, m) + Total([e], m);
      assert Total(txns, m) == Weight(s, m) + Total([p, e], m);
    }
  }
}
