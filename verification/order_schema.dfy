/**
 * The order document of the server's order schema: which paths are required,
 * which have defaults, and the record a successful save stores.
 */
module OrderSchema {
  import opened Wrappers
  import Text

  /** One purchased line, frozen at order time. */
  datatype OrderItem = OrderItem(productId: string, name: string, quantity: int, price: int)

  /** A stored order: every required path present and every default applied. */
  datatype Order = Order(
    customerName: string,
    customerPhone: string,
    deliveryAddress: string,
    items: seq<OrderItem>,
    subtotal: int,
    deliveryFee: int,
    totalAmount: int,
    paymentMethod: string,
    paymentStatus: string,
    status: string,
    createdAt: int)

  /** An item sub-document as submitted; any path may be absent. */
  datatype ItemFields = ItemFields(
    productId: Option<string>,
    name: Option<string>,
    quantity: Option<int>,
    price: Option<int>)

  /** An order document as submitted; any path may be absent. */
  datatype OrderFields = OrderFields(
    customerName: Option<string>,
    customerPhone: Option<string>,
    deliveryAddress: Option<string>,
    items: Option<seq<ItemFields>>,
    subtotal: Option<int>,
    deliveryFee: Option<int>,
    totalAmount: Option<int>,
    paymentMethod: Option<string>,
    paymentStatus: Option<string>,
    status: Option<string>,
    createdAt: Option<int>)

  const DefaultPaymentMethod := "online"
  const DefaultPaymentStatus := "Pending"
  const DefaultStatus := "Pending"

  /** The required check on a String path: present and of positive length. */
  predicate HasString(v: Option<string>) {
    v.Some? && |v.value| > 0
  }

  /** The required check on a Number path: present. */
  predicate HasNumber(v: Option<int>) {
    v.Some?
  }

  predicate ItemValid(it: ItemFields) {
    HasString(it.productId) && HasString(it.name) && HasNumber(it.quantity) && HasNumber(it.price)
  }

  predicate ItemsValid(items: seq<ItemFields>) {
    forall i :: 0 <= i < |items| ==> ItemValid(items[i])
  }

  /** Every required path of the schema is satisfied; status and payment paths take any string. */
  predicate Valid(d: OrderFields) {
    && HasString(d.customerName)
    && HasString(d.customerPhone)
    && HasString(d.deliveryAddress)
    && HasNumber(d.subtotal)
    && HasNumber(d.deliveryFee)
    && HasNumber(d.totalAmount)
    && ItemsValid(d.items.GetOr([]))
  }

  /** The path prefix of the item at array position `n`, as `items.0.`. */
  function ItemPrefix(n: nat): (r: string)
    ensures Text.StartsWith(r, "items.")
  {
    "items." + Text.NatToString(n) + "."
  }

  /** The failing paths of one item, each prefixed by its position, as `items.0.name`. */
  function ItemErrors(it: ItemFields, prefix: string): (r: set<string>)
    ensures r == {} <==> ItemValid(it)
    ensures r <= {prefix + "productId", prefix + "name", prefix + "quantity", prefix + "price"}
    ensures prefix + "productId" in r <==> !HasString(it.productId)
    ensures prefix + "name" in r <==> !HasString(it.name)
    ensures prefix + "quantity" in r <==> !HasNumber(it.quantity)
    ensures prefix + "price" in r <==> !HasNumber(it.price)
  {
    (if HasString(it.productId) then {} else {prefix + "productId"})
    + (if HasString(it.name) then {} else {prefix + "name"})
    + (if HasNumber(it.quantity) then {} else {prefix + "quantity"})
    + (if HasNumber(it.price) then {} else {prefix + "price"})
  }

  /** The failing paths of `items`, whose first element sits at array position `from`. */
  function ItemsErrors(items: seq<ItemFields>, from: nat): (r: set<string>)
    ensures r == {} <==> ItemsValid(items)
    ensures forall i :: 0 <= i < |items| ==> ItemErrors(items[i], ItemPrefix(from + i)) <= r
    ensures forall p :: p in r ==> |p| > 0 && p[0] == 'i'
    decreases |items|
  {
    if |items| == 0 then {}
    else
      assert forall i :: 1 <= i < |items| ==> items[1..][i - 1] == items[i];
      ItemErrors(items[0], ItemPrefix(from)) + ItemsErrors(items[1..], from + 1)
  }

  /** The position of the item a reported item path belongs to. */
  lemma {:induction false} ItemOfPath(items: seq<ItemFields>, from: nat, p: string) returns (k: nat)
    requires p in ItemsErrors(items, from)
    ensures k < |items| && p in ItemErrors(items[k], ItemPrefix(from + k))
    decreases |items|
  {
    if p in ItemErrors(items[0], ItemPrefix(from)) {
      k := 0;
    } else {
      var j := ItemOfPath(items[1..], from + 1, p);
      assert items[1..][j] == items[j + 1];
      k := j + 1;
    }
  }

  /** Every failing item path belongs to some item: the reported set is the union over the items. */
  lemma ItemsErrorsFromItems(items: seq<ItemFields>, from: nat, p: string)
    ensures p in ItemsErrors(items, from) <==>
      exists i :: 0 <= i < |items| && p in ItemErrors(items[i], ItemPrefix(from + i))
  {
    if p in ItemsErrors(items, from) {
      var k := ItemOfPath(items, from, p);
      assert p in ItemErrors(items[k], ItemPrefix(from + k));
    }
  }

  /** The required top-level paths other than `items`. */
  const TopPaths: set<string> := {"customerName", "customerPhone", "deliveryAddress", "subtotal", "deliveryFee", "totalAmount"}

  /** The failing required top-level paths other than `items`. */
  function TopErrors(d: OrderFields): (r: set<string>)
    ensures r <= TopPaths
    ensures "customerName" in r <==> !HasString(d.customerName)
    ensures "customerPhone" in r <==> !HasString(d.customerPhone)
    ensures "deliveryAddress" in r <==> !HasString(d.deliveryAddress)
    ensures "subtotal" in r <==> !HasNumber(d.subtotal)
    ensures "deliveryFee" in r <==> !HasNumber(d.deliveryFee)
    ensures "totalAmount" in r <==> !HasNumber(d.totalAmount)
  {
    (if HasString(d.customerName) then {} else {"customerName"})
    + (if HasString(d.customerPhone) then {} else {"customerPhone"})
    + (if HasString(d.deliveryAddress) then {} else {"deliveryAddress"})
    + (if HasNumber(d.subtotal) then {} else {"subtotal"})
    + (if HasNumber(d.deliveryFee) then {} else {"deliveryFee"})
    + (if HasNumber(d.totalAmount) then {} else {"totalAmount"})
  }

  /** The paths a save reports as failing validation: exactly the failing top-level paths and item paths. */
  function Errors(d: OrderFields): (r: set<string>)
    ensures r == {} <==> Valid(d)
    ensures "customerName" in r <==> !HasString(d.customerName)
    ensures "customerPhone" in r <==> !HasString(d.customerPhone)
    ensures "deliveryAddress" in r <==> !HasString(d.deliveryAddress)
    ensures "subtotal" in r <==> !HasNumber(d.subtotal)
    ensures "deliveryFee" in r <==> !HasNumber(d.deliveryFee)
    ensures "totalAmount" in r <==> !HasNumber(d.totalAmount)
    ensures ItemsErrors(d.items.GetOr([]), 0) <= r
    ensures forall p :: p in r && p !in TopPaths ==> p in ItemsErrors(d.items.GetOr([]), 0)
  {
    var items := ItemsErrors(d.items.GetOr([]), 0);
    assert "customerName" !in items && "customerPhone" !in items && "deliveryAddress" !in items;
    assert "subtotal" !in items && "deliveryFee" !in items && "totalAmount" !in items;
    TopErrors(d) + items
  }

  /** Fills the paths that have defaults when they are absent; `now` is the creation clock. */
  function WithDefaults(d: OrderFields, now: int): (r: OrderFields)
    ensures r.paymentMethod.Some? && r.paymentStatus.Some? && r.status.Some?
    ensures r.items.Some? && r.createdAt.Some?
    ensures d.paymentMethod.None? ==> r.paymentMethod.value == DefaultPaymentMethod
    ensures d.paymentStatus.None? ==> r.paymentStatus.value == DefaultPaymentStatus
    ensures d.status.None? ==> r.status.value == DefaultStatus
    ensures d.items.None? ==> r.items.value == []
    ensures d.createdAt.None? ==> r.createdAt.value == now
    ensures d.paymentMethod.Some? ==> r.paymentMethod == d.paymentMethod
    ensures d.paymentStatus.Some? ==> r.paymentStatus == d.paymentStatus
    ensures d.status.Some? ==> r.status == d.status
    ensures d.items.Some? ==> r.items == d.items
    ensures d.createdAt.Some? ==> r.createdAt == d.createdAt
    ensures r.customerName == d.customerName && r.customerPhone == d.customerPhone
    ensures r.deliveryAddress == d.deliveryAddress
    ensures r.subtotal == d.subtotal && r.deliveryFee == d.deliveryFee
    ensures r.totalAmount == d.totalAmount
  {
    d.(paymentMethod := Some(d.paymentMethod.GetOr(DefaultPaymentMethod)),
       paymentStatus := Some(d.paymentStatus.GetOr(DefaultPaymentStatus)),
       status := Some(d.status.GetOr(DefaultStatus)),
       items := Some(d.items.GetOr([])),
       createdAt := Some(d.createdAt.GetOr(now)))
  }

  /** Applying the defaults a second time changes nothing, whatever the second clock reads. */
  lemma WithDefaultsIdempotent(d: OrderFields, now: int, later: int)
    ensures WithDefaults(WithDefaults(d, now), later) == WithDefaults(d, now)
  {
  }

  function ToItem(it: ItemFields): (r: OrderItem)
    requires ItemValid(it)
    ensures r.productId == it.productId.value && r.name == it.name.value
    ensures r.quantity == it.quantity.value && r.price == it.price.value
  {
    OrderItem(it.productId.value, it.name.value, it.quantity.value, it.price.value)
  }

  /** The defaults touch no required path, so they change no validation outcome. */
  lemma DefaultsKeepErrors(d: OrderFields, now: int)
    ensures Errors(WithDefaults(d, now)) == Errors(d)
  {
    var e := WithDefaults(d, now);
    assert e.items.GetOr([]) == d.items.GetOr([]);
    assert TopErrors(e) == TopErrors(d);
  }

  /** The record stored for a document with its defaults filled and every required path valid. */
  function Stored(e: OrderFields): (r: Order)
    requires Valid(e) && e.paymentMethod.Some? && e.paymentStatus.Some? && e.status.Some?
    requires e.items.Some? && e.createdAt.Some?
    ensures r.customerName == e.customerName.value && r.customerPhone == e.customerPhone.value
    ensures r.deliveryAddress == e.deliveryAddress.value
    ensures r.subtotal == e.subtotal.value && r.deliveryFee == e.deliveryFee.value
    ensures r.totalAmount == e.totalAmount.value
    ensures r.paymentMethod == e.paymentMethod.value && r.paymentStatus == e.paymentStatus.value
    ensures r.status == e.status.value && r.createdAt == e.createdAt.value
    ensures |r.items| == |e.items.value|
    ensures forall i :: 0 <= i < |r.items| ==> r.items[i] == ToItem(e.items.value[i])
  {
    var items := e.items.value;
    Order(
      e.customerName.value, e.customerPhone.value, e.deliveryAddress.value,
      seq(|items|, i requires 0 <= i < |items| => ToItem(items[i])),
      e.subtotal.value, e.deliveryFee.value, e.totalAmount.value,
      e.paymentMethod.value, e.paymentStatus.value, e.status.value, e.createdAt.value)
  }

  /** Saving a document: defaults first, then validation, then the stored record. */
  function Create(d: OrderFields, now: int): (r: Result<Order, set<string>>)
    ensures r.Success? <==> Valid(d)
    ensures r.Failure? ==> r.error == Errors(d) && r.error != {}
    ensures r.Success? ==>
      && r.value.customerName == d.customerName.value
      && r.value.customerPhone == d.customerPhone.value
      && r.value.deliveryAddress == d.deliveryAddress.value
      && r.value.subtotal == d.subtotal.value
      && r.value.deliveryFee == d.deliveryFee.value
      && r.value.totalAmount == d.totalAmount.value
      && r.value.paymentMethod == d.paymentMethod.GetOr(DefaultPaymentMethod)
      && r.value.paymentStatus == d.paymentStatus.GetOr(DefaultPaymentStatus)
      && r.value.status == d.status.GetOr(DefaultStatus)
      && r.value.createdAt == d.createdAt.GetOr(now)
      && |r.value.items| == |d.items.GetOr([])|
      && forall i :: 0 <= i < |r.value.items| ==> r.value.items[i] == ToItem(d.items.GetOr([])[i])
  {
    var e := WithDefaults(d, now);
    DefaultsKeepErrors(d, now);
    if Errors(e) != {} then Failure(Errors(e))
    else Success(Stored(e))
  }

  /**
   * No enumeration guards the status and payment paths: a valid document saves
   * whatever strings it carries there, unknown stage names and the empty string included.
   */
  lemma StatusPathsUnconstrained(d: OrderFields, now: int, payMethod: string, payment: string, status: string)
    requires Valid(d)
    ensures var r := Create(d.(paymentMethod := Some(payMethod), paymentStatus := Some(payment), status := Some(status)), now);
      r.Success? && r.value.paymentMethod == payMethod && r.value.paymentStatus == payment && r.value.status == status
  {
  }

  /** The schema does not require any items: a document with an empty list saves. */
  lemma EmptyItemsAccepted(d: OrderFields, now: int)
    requires Valid(d)
    ensures Create(d.(items := Some([])), now).Success?
    ensures Create(d.(items := None), now).Success?
  {
  }
}
