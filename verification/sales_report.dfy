/**
 * The sales report: orders since a period's cutoff, their count and revenue,
 * and the table row printed for each of them.
 */
module SalesReport {
  import opened Wrappers
  import Seqs
  import Text
  import OrderSchema
  import AdminOrders

  /** An order as the report reads it from the order list; the fields it guards may be absent. */
  datatype ReportOrder = ReportOrder(
    createdAt: int,
    customerName: string,
    customerPhone: string,
    paymentMethod: Option<string>,
    paymentRef: Option<string>,
    totalAmount: Option<int>,
    status: Option<string>)

  /**
   * The clock readings a report is measured from, in milliseconds: local midnight
   * today, and the same midnight one calendar month earlier.
   */
  datatype Clock = Clock(startOfDay: int, monthAgo: int)

  /** Seven days of milliseconds, subtracted from midnight for the weekly period. */
  const WeekMillis := 7 * 24 * 60 * 60 * 1000

  /**
   * The earliest creation time a period keeps, or None for a period that keeps
   * everything. The weekly cutoff counts back from midnight, not from the present moment.
   */
  function Cutoff(period: string, c: Clock): (r: Option<int>)
    ensures r.None? <==> period !in {"Today", "Weekly", "Monthly"}
    ensures period == "Today" ==> r == Some(c.startOfDay)
    ensures period == "Weekly" ==> r == Some(c.startOfDay - 604800000)
    ensures period == "Monthly" ==> r == Some(c.monthAgo)
    ensures r.Some? && period != "Monthly" ==> r.value <= c.startOfDay
  {
    if period == "Today" then Some(c.startOfDay)
    else if period == "Weekly" then Some(c.startOfDay - WeekMillis)
    else if period == "Monthly" then Some(c.monthAgo)
    else None
  }

  /** The orders a period keeps. */
  function FilterPeriod(orders: seq<ReportOrder>, period: string, c: Clock): (r: seq<ReportOrder>)
    ensures Cutoff(period, c).None? ==> r == orders
    ensures Seqs.IsSubsequence(r, orders)
    ensures Cutoff(period, c).Some? ==>
      && (forall i :: 0 <= i < |r| ==> r[i].createdAt >= Cutoff(period, c).value)
      && (forall i :: 0 <= i < |orders| && orders[i].createdAt >= Cutoff(period, c).value ==> orders[i] in r)
    ensures forall x :: multiset(r)[x] == (if Kept(x, period, c) then multiset(orders)[x] else 0)
  {
    match Cutoff(period, c)
    case None => Seqs.SubsequenceReflexive(orders); orders
    case Some(t) => Seqs.FilterCounts(orders, Since(t)); Seqs.Filter(orders, Since(t))
  }

  /** The test a period with cutoff `t` applies: `new Date(o.createdAt) >= t`. */
  function Since(t: int): ReportOrder -> bool {
    (o: ReportOrder) => o.createdAt >= t
  }

  /** Whether a period keeps an order. */
  predicate Kept(o: ReportOrder, period: string, c: Clock) {
    Cutoff(period, c).None? || o.createdAt >= Cutoff(period, c).value
  }

  /** An order kept for today is kept for the week; with a month reaching back past the week, also for the month. */
  lemma PeriodsNest(orders: seq<ReportOrder>, c: Clock, o: ReportOrder)
    ensures o in FilterPeriod(orders, "Today", c) ==> o in FilterPeriod(orders, "Weekly", c)
    ensures c.monthAgo <= c.startOfDay - WeekMillis && o in FilterPeriod(orders, "Weekly", c) ==>
      o in FilterPeriod(orders, "Monthly", c)
    ensures o in FilterPeriod(orders, "Monthly", c) ==> o in FilterPeriod(orders, "All", c)
  {
    Seqs.SubsequenceMembers(FilterPeriod(orders, "Today", c), orders);
    Seqs.SubsequenceMembers(FilterPeriod(orders, "Weekly", c), orders);
    Seqs.SubsequenceMembers(FilterPeriod(orders, "Monthly", c), orders);
  }

  /** `o.totalAmount || 0`. */
  function AmountOrZero(o: ReportOrder): int {
    o.totalAmount.GetOr(0)
  }

  datatype PeriodStats = PeriodStats(count: int, revenue: int)

  /** The count and revenue of a period: its orders, and their amounts with a missing one as 0. */
  function ComputePeriodStats(orders: seq<ReportOrder>, period: string, c: Clock): (r: PeriodStats)
    ensures r.count == |FilterPeriod(orders, period, c)|
    ensures r.count <= |orders|
    ensures (forall i :: 0 <= i < |orders| ==> orders[i].totalAmount.None?) ==> r.revenue == 0
  {
    var kept := FilterPeriod(orders, period, c);
    Seqs.SubsequenceMembers(kept, orders);
    ZeroSum(kept);
    PeriodStats(|kept|, Seqs.SumOf(kept, AmountOrZero))
  }

  /** One more order at the end adds one to the count and its amount, or 0 when missing, to the revenue exactly when the period keeps it. */
  lemma PeriodStatsAppend(orders: seq<ReportOrder>, o: ReportOrder, period: string, c: Clock)
    ensures ComputePeriodStats(orders + [o], period, c).count ==
      ComputePeriodStats(orders, period, c).count + (if Kept(o, period, c) then 1 else 0)
    ensures ComputePeriodStats(orders + [o], period, c).revenue ==
      ComputePeriodStats(orders, period, c).revenue + (if Kept(o, period, c) then o.totalAmount.GetOr(0) else 0)
  {
    var kept := FilterPeriod(orders, period, c);
    match Cutoff(period, c)
    case None =>
      Seqs.SumOfAppend(kept, [o], AmountOrZero);
    case Some(t) =>
      Seqs.FilterAppend(orders, o, Since(t));
      assert Since(t)(o) == Kept(o, period, c);
      if Kept(o, period, c) {
        Seqs.SumOfAppend(kept, [o], AmountOrZero);
      } else {
        assert kept + [] == kept;
      }
  }

  predicate HasAmount(o: ReportOrder) {
    o.totalAmount.Some?
  }

  /** Dropping the orders without an amount leaves every period's revenue unchanged. */
  lemma {:induction false} MissingAmountsAddNothing(orders: seq<ReportOrder>, period: string, c: Clock)
    ensures ComputePeriodStats(Seqs.Filter(orders, HasAmount), period, c).revenue ==
      ComputePeriodStats(orders, period, c).revenue
  {
    var kept := FilterPeriod(orders, period, c);
    match Cutoff(period, c)
    case None =>
      Seqs.SumOfFilterZero(orders, HasAmount, AmountOrZero);
    case Some(t) =>
      Seqs.FilterCommutes(orders, HasAmount, Since(t));
      Seqs.SubsequenceMembers(kept, orders);
      Seqs.SumOfFilterZero(kept, HasAmount, AmountOrZero);
  }

  /** A list whose amounts are all missing has zero revenue. */
  lemma {:induction false} ZeroSum(s: seq<ReportOrder>)
    ensures (forall i :: 0 <= i < |s| ==> s[i].totalAmount.None?) ==> Seqs.SumOf(s, AmountOrZero) == 0
    decreases |s|
  {
    if |s| > 0 {
      ZeroSum(s[1..]);
      assert forall i :: 0 <= i < |s[1..]| ==> s[1..][i] == s[i + 1];
    }
  }

  /** One row of the report table. The date is the creation time; its locale formatting is not modelled. */
  datatype Row = Row(date: int, customer: string, phone: string, payment: string, amount: string, status: string)

  /** `value || fallback` for an optional string: absent and empty both fall back. */
  function OrElse(v: Option<string>, fallback: string): (r: string)
    ensures v.Some? && v.value != "" ==> r == v.value
    ensures v.None? || v.value == "" ==> r == fallback
  {
    if v.Some? && v.value != "" then v.value else fallback
  }

  /** The payment column: online orders show their UPI reference, anything else reads COD. */
  function PaymentColumn(o: ReportOrder): (r: string)
    ensures r == "COD" <==> o.paymentMethod != Some("online")
    ensures o.paymentMethod == Some("online") ==> r == "UPI (Ref: " + OrElse(o.paymentRef, "-") + ")"
    ensures o.paymentMethod != Some("online") ==> r == "COD"
  {
    if o.paymentMethod == Some("online") then "UPI (Ref: " + OrElse(o.paymentRef, "-") + ")" else "COD"
  }

  /** The amount column; a template literal prints a missing amount as `undefined`. */
  function AmountColumn(o: ReportOrder): (r: string)
    ensures Text.StartsWith(r, "Rs. ")
    ensures o.totalAmount.Some? && o.totalAmount.value >= 0 ==>
      && (forall i :: 0 <= i < |r[4..]| ==> Text.IsDigit(r[4..][i]))
      && Text.ParseNat(r[4..]) == o.totalAmount.value
    ensures o.totalAmount.None? ==> r == "Rs. undefined"
    ensures o.totalAmount.Some? ==> r[4..] == Text.IntToString(o.totalAmount.value)
  {
    var shown := match o.totalAmount
      case Some(n) => Text.IntToString(n)
      case None => "undefined";
    assert ("Rs. " + shown)[4..] == shown;
    "Rs. " + shown
  }

  function ReportRow(o: ReportOrder): (r: Row)
    ensures r.customer == o.customerName && r.phone == o.customerPhone
    ensures r.status == OrElse(o.status, "Pending")
    ensures r.status != ""
    ensures r.date == o.createdAt && r.payment == PaymentColumn(o) && r.amount == AmountColumn(o)
  {
    Row(o.createdAt, o.customerName, o.customerPhone, PaymentColumn(o), AmountColumn(o), OrElse(o.status, "Pending"))
  }

  /** The table body for a list of orders: one row per order, in the list's order. */
  function Rows(kept: seq<ReportOrder>): (r: seq<Row>)
    ensures |r| == |kept|
    ensures forall i :: 0 <= i < |r| ==> r[i].customer == kept[i].customerName && r[i].date == kept[i].createdAt
    ensures forall i :: 0 <= i < |r| ==> r[i] == ReportRow(kept[i])
  {
    seq(|kept|, i requires 0 <= i < |kept| => ReportRow(kept[i]))
  }

  /** The report table: the rows of exactly the orders the period keeps. */
  function ReportRows(orders: seq<ReportOrder>, period: string, c: Clock): (r: seq<Row>)
    ensures |r| <= |orders|
    ensures Cutoff(period, c).None? ==> |r| == |orders|
    ensures |r| == |FilterPeriod(orders, period, c)|
    ensures forall i :: 0 <= i < |r| ==> r[i] == ReportRow(FilterPeriod(orders, period, c)[i])
    ensures Cutoff(period, c).Some? ==> forall i :: 0 <= i < |r| ==> r[i].date >= Cutoff(period, c).value
  {
    Rows(FilterPeriod(orders, period, c))
  }

  /**
   * A stored order as the list endpoint returns it: every guarded field present,
   * and no payment reference, since the order schema declares no such path.
   */
  function FromRecord(o: OrderSchema.Order): (r: ReportOrder)
    ensures r.totalAmount == Some(o.totalAmount) && r.status == Some(o.status)
    ensures r.createdAt == o.createdAt && r.customerName == o.customerName && r.customerPhone == o.customerPhone
    ensures r.paymentMethod == Some(o.paymentMethod)
    ensures r.paymentRef.None?
  {
    ReportOrder(o.createdAt, o.customerName, o.customerPhone, Some(o.paymentMethod), None,
                Some(o.totalAmount), Some(o.status))
  }

  function FromRecords(orders: seq<OrderSchema.Order>): (r: seq<ReportOrder>)
    ensures |r| == |orders|
    ensures forall i :: 0 <= i < |r| ==> r[i] == FromRecord(orders[i])
  {
    seq(|orders|, i requires 0 <= i < |orders| => FromRecord(orders[i]))
  }

  /** Over stored orders, the report's guarded amounts sum to the plain sum of the stored amounts. */
  lemma {:induction false} RecordsRevenue(orders: seq<OrderSchema.Order>)
    ensures Seqs.SumOf(FromRecords(orders), AmountOrZero) == Seqs.SumOf(orders, AdminOrders.OrderAmount)
    decreases |orders|
  {
    if |orders| > 0 {
      RecordsRevenue(orders[1..]);
      assert FromRecords(orders)[1..] == FromRecords(orders[1..]);
    }
  }

  /** Over stored orders, the All report's count and revenue are the admin board's total and sales counters. */
  lemma AllTimeRevenueAgrees(orders: seq<OrderSchema.Order>, c: Clock)
    ensures ComputePeriodStats(FromRecords(orders), "All", c).revenue == AdminOrders.ComputeStats(orders).revenue
    ensures ComputePeriodStats(FromRecords(orders), "All", c).count == AdminOrders.ComputeStats(orders).total
  {
    RecordsRevenue(orders);
  }

  /** A stored online order always prints the placeholder reference. */
  lemma StoredOnlineOrderShowsNoReference(o: OrderSchema.Order)
    requires o.paymentMethod == "online"
    ensures PaymentColumn(FromRecord(o)) == "UPI (Ref: -)"
  {
  }

  /** A stored order with an empty status prints as Pending; any other status prints as stored. */
  lemma StoredStatusColumn(o: OrderSchema.Order)
    ensures ReportRow(FromRecord(o)).status == (if o.status == "" then "Pending" else o.status)
  {
  }
}
