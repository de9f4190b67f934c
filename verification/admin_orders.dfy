/**
 * The admin order board: the fixed fulfilment stages, the status and search
 * filter, the dashboard counters, the stage shown for an order and the
 * customer notification chosen when an admin picks a stage.
 */
module AdminOrders {
  import opened Wrappers
  import Seqs
  import Text
  import opened OrderSchema

  /** A fulfilment stage: the stored status string and the caption shown for it. */
  datatype Stage = Stage(id: string, caption: string)

  /** The five stages, in their intended order. */
  const StatusFlow: seq<Stage> := [
    Stage("Pending", "Pending"),
    Stage("Received", "Order Received"),
    Stage("Packed", "Order Packed"),
    Stage("On The Way", "Out for Delivery"),
    Stage("Delivered", "Delivered")
  ]

  /** The stored status strings of the stages, in order. */
  function StageIds(): (r: seq<string>)
    ensures r == ["Pending", "Received", "Packed", "On The Way", "Delivered"]
    ensures forall i, j :: 0 <= i < j < |r| ==> r[i] != r[j]
  {
    seq(|StatusFlow|, i requires 0 <= i < |StatusFlow| => StatusFlow[i].id)
  }

  /** The status filter value that keeps every order. */
  const AllFilter := "All"

  /** The status filter buttons: everything, then each stage. */
  function FilterOptions(): (r: seq<string>)
    ensures r == ["All", "Pending", "Received", "Packed", "On The Way", "Delivered"]
    ensures r[0] == AllFilter && r[1..] == StageIds()
  {
    [AllFilter] + StageIds()
  }

  /** The order's status is one of the five stages. */
  predicate IsStage(status: string) {
    status in StageIds()
  }

  predicate MatchesStatus(o: Order, filter: string) {
    filter == AllFilter || o.status == filter
  }

  /** The search term occurs in the name ignoring case. */
  predicate NameMatches(o: Order, term: string) {
    Text.Includes(Text.ToLower(o.customerName), Text.ToLower(term))
  }

  /** The search term occurs in the name ignoring case, or in the phone exactly as typed. */
  predicate MatchesSearch(o: Order, term: string) {
    NameMatches(o, term) || Text.Includes(o.customerPhone, term)
  }

  predicate Shown(o: Order, filter: string, term: string) {
    MatchesStatus(o, filter) && MatchesSearch(o, term)
  }

  /** The orders on the board for a status filter and a search term. */
  function FilteredOrders(orders: seq<Order>, filter: string, term: string): (r: seq<Order>)
    ensures Seqs.IsSubsequence(r, orders)
    ensures forall i :: 0 <= i < |r| ==> Shown(r[i], filter, term)
    ensures forall i :: 0 <= i < |orders| && Shown(orders[i], filter, term) ==> orders[i] in r
    ensures filter != AllFilter ==> forall i :: 0 <= i < |r| ==> r[i].status == filter
    ensures filter == AllFilter && term == "" ==> r == orders
    ensures forall x :: multiset(r)[x] == (if Shown(x, filter, term) then multiset(orders)[x] else 0)
  {
    Seqs.FilterCounts(orders, (o: Order) => Shown(o, filter, term));
    Seqs.Filter(orders, (o: Order) => Shown(o, filter, term))
  }

  /** Name search ignores the case of the term: searching with its lower-case form finds the same names. */
  lemma NameSearchIgnoresCase(o: Order, term: string)
    ensures NameMatches(o, term) <==> NameMatches(o, Text.ToLower(term))
  {
    Text.ToLowerIdempotent(term);
  }

  /** Search succeeds exactly when the term sits at some position of the lower-cased name or of the phone. */
  lemma SearchIffOccurs(o: Order, term: string)
    ensures MatchesSearch(o, term) <==>
      (exists i :: Text.OccursAt(Text.ToLower(o.customerName), Text.ToLower(term), i))
      || (exists i :: Text.OccursAt(o.customerPhone, term, i))
  {
    Text.IncludesIffOccurs(Text.ToLower(o.customerName), Text.ToLower(term));
    Text.IncludesIffOccurs(o.customerPhone, term);
  }

  /** The four dashboard counters. */
  datatype Stats = Stats(total: int, pending: int, processing: int, revenue: int)

  /** The statuses counted as in progress. */
  const ProcessingStatuses: seq<string> := ["Received", "Packed", "On The Way"]

  predicate IsPending(o: Order) {
    o.status == "Pending"
  }

  predicate IsProcessing(o: Order) {
    o.status in ProcessingStatuses
  }

  function OrderAmount(o: Order): int {
    o.totalAmount
  }

  /** The dashboard counters over the whole list, whatever filter is applied. */
  function ComputeStats(orders: seq<Order>): (r: Stats)
    ensures r.total == |orders|
    ensures r.pending + r.processing <= r.total
    ensures (forall i :: 0 <= i < |orders| ==> IsPending(orders[i])) ==> r.pending == r.total && r.processing == 0
  {
    Seqs.FilterDisjoint(orders, IsPending, IsProcessing);
    Stats(
      |orders|,
      |Seqs.Filter(orders, IsPending)|,
      |Seqs.Filter(orders, IsProcessing)|,
      Seqs.SumOf(orders, OrderAmount))
  }

  /** One more order adds one to the total and its amount to the revenue. */
  lemma StatsAppendTotals(orders: seq<Order>, o: Order)
    ensures ComputeStats(orders + [o]).total == ComputeStats(orders).total + 1
    ensures ComputeStats(orders + [o]).revenue == ComputeStats(orders).revenue + o.totalAmount
  {
    Seqs.SumOfAppend(orders, [o], OrderAmount);
  }

  /** One more order adds one to the pending or the in-progress counter according to its status, or to neither. */
  lemma StatsAppendCounters(orders: seq<Order>, o: Order)
    ensures ComputeStats(orders + [o]).pending == ComputeStats(orders).pending + (if IsPending(o) then 1 else 0)
    ensures ComputeStats(orders + [o]).processing == ComputeStats(orders).processing + (if IsProcessing(o) then 1 else 0)
  {
    Seqs.FilterAppend(orders, o, IsPending);
    Seqs.FilterAppend(orders, o, IsProcessing);
  }

  /** A stage with the given status string, if any; over distinct ids it is the only one. */
  function FindStage(stages: seq<Stage>, status: string): (r: Option<Stage>)
    ensures r.Some? ==> r.value in stages && r.value.id == status
    ensures r.None? ==> forall i :: 0 <= i < |stages| ==> stages[i].id != status
  {
    if |stages| == 0 then None
    else if stages[0].id == status then Some(stages[0])
    else FindStage(stages[1..], status)
  }

  /** The stage badge shown for an order: its own stage, or Pending for an unknown status. */
  function DisplayStage(status: string): (r: Stage)
    ensures r in StatusFlow
    ensures r.id == status <==> IsStage(status)
    ensures !IsStage(status) ==> r == StatusFlow[0]
  {
    FindStage(StatusFlow, status).GetOr(StatusFlow[0])
  }

  /** The customer message fragment for a stage; Pending and unknown statuses have none. */
  function StatusText(status: string): (r: Option<string>)
    ensures r.Some? <==> status in ProcessingStatuses || status == "Delivered"
  {
    if status == "Received" then Some("\U{2705} *Received* and is being processed!")
    else if status == "Packed" then Some("\U{1F4E6} *Packed* and ready for pickup!")
    else if status == "On The Way" then Some("\U{1F680} *Out for Delivery* and will reach you soon!")
    else if status == "Delivered" then Some("\U{2728} *Delivered* successfully! Enjoy your fresh batter.")
    else None
  }

  /** The notification sent after a status change: none for Pending, else the stage's text if it has one. */
  function UpdateNotification(status: string): (r: Option<string>)
    ensures r.Some? <==> IsStage(status) && status != "Pending"
    ensures r.Some? ==> r == StatusText(status)
  {
    if status != "Pending" then StatusText(status) else None
  }

  /** Different stages produce different texts, so a customer can tell the stage from the message. */
  lemma StatusTextInjective(a: string, b: string)
    requires StatusText(a).Some? && StatusText(a) == StatusText(b)
    ensures a == b
  {
  }

  /** Which stage buttons of an order are enabled: all but its current stage. */
  function StageButtons(o: Order): (r: seq<bool>)
    ensures |r| == |StatusFlow|
    ensures forall i :: 0 <= i < |r| ==> (r[i] <==> StatusFlow[i].id != o.status)
    ensures forall i, j :: 0 <= i < |r| && 0 <= j < |r| && i != j && o.status == StatusFlow[i].id ==> r[j]
    ensures !IsStage(o.status) ==> forall i :: 0 <= i < |r| ==> r[i]
  {
    seq(|StatusFlow|, i requires 0 <= i < |StatusFlow| => StatusFlow[i].id != o.status)
  }

  /** What a click on a stage button asks for: the new status and the notification to open. */
  datatype StatusUpdate = StatusUpdate(status: string, notice: Option<string>)

  /**
   * Clicking the button of stage `i`: nothing for the disabled current stage,
   * otherwise that stage is requested, from any stage, with a notice for all but Pending.
   */
  function ClickStage(o: Order, i: nat): (r: Option<StatusUpdate>)
    requires i < |StatusFlow|
    ensures r.None? <==> o.status == StatusFlow[i].id
    ensures r.Some? ==> r.value.status == StatusFlow[i].id
    ensures r.Some? ==> (r.value.notice.Some? <==> i > 0)
    ensures r.Some? ==> r.value.notice == UpdateNotification(StatusFlow[i].id)
  {
    if !StageButtons(o)[i] then None
    else Some(StatusUpdate(StatusFlow[i].id, UpdateNotification(StatusFlow[i].id)))
  }
}
