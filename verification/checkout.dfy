/**
 * Placing an order from the storefront: the guard, the phone normalisation and
 * the order body that is posted, and what the order schema makes of that body.
 */
module Checkout {
  import opened Wrappers
  import Text
  import Seqs
  import Cart
  import OrderSchema

  /** The checkout form. */
  datatype CustomerInfo = CustomerInfo(name: string, phone: string, address: string)

  /** The order body the storefront posts. */
  datatype Payload = Payload(
    customerName: string,
    customerPhone: string,
    deliveryAddress: string,
    items: seq<OrderSchema.OrderItem>,
    totalAmount: int)

  /** Why placing an order stopped before anything was posted. */
  datatype Refusal = EmptyCart | MissingDetails

  /** India's country calling code, which every stored phone number is meant to start with. */
  const CountryPrefix := "91"

  /** A number already starting with the prefix is kept as typed; otherwise its digits get the prefix. */
  function NormalizePhone(phone: string): (r: string)
    ensures Text.StartsWith(r, CountryPrefix)
    ensures Text.StartsWith(phone, CountryPrefix) ==> r == phone
    ensures !Text.StartsWith(phone, CountryPrefix) ==>
      && (forall i :: 2 <= i < |r| ==> Text.IsDigit(r[i]))
      && Seqs.IsSubsequence(r[2..], phone)
      && (forall i :: 0 <= i < |phone| && Text.IsDigit(phone[i]) ==> phone[i] in r[2..])
      && (forall c :: multiset(r[2..])[c] == (if Text.IsDigit(c) then multiset(phone)[c] else 0))
  {
    if Text.StartsWith(phone, CountryPrefix) then phone
    else
      var digits := Text.DigitsOnly(phone);
      assert (CountryPrefix + digits)[2..] == digits;
      CountryPrefix + digits
  }

  /** Normalising an already normalised number changes nothing. */
  lemma NormalizePhoneIdempotent(phone: string)
    ensures NormalizePhone(NormalizePhone(phone)) == NormalizePhone(phone)
  {
  }

  /** An all-digit number without the prefix gets exactly the prefix in front. */
  lemma NormalizeLocalNumber(phone: string)
    requires !Text.StartsWith(phone, CountryPrefix)
    requires forall i :: 0 <= i < |phone| ==> Text.IsDigit(phone[i])
    ensures NormalizePhone(phone) == CountryPrefix + phone
  {
  }

  /** The order line posted for one cart line. */
  function ToOrderItem(l: Cart.Line): OrderSchema.OrderItem {
    OrderSchema.OrderItem(l.item.id, l.item.name, l.quantity, l.item.price)
  }

  /** The placing step: refuse an empty cart, then an incomplete form, otherwise build the body. */
  function PlaceOrder(cart: seq<Cart.Line>, info: CustomerInfo): (r: Result<Payload, Refusal>)
    ensures |cart| == 0 ==> r == Failure(EmptyCart)
    ensures |cart| > 0 && (info.name == "" || info.phone == "" || info.address == "") ==>
      r == Failure(MissingDetails)
    ensures r.Success? <==> |cart| > 0 && info.name != "" && info.phone != "" && info.address != ""
    ensures r.Success? ==>
      && r.value.customerName == info.name
      && r.value.customerPhone == NormalizePhone(info.phone)
      && r.value.deliveryAddress == info.address
      && |r.value.items| == |cart|
      && (forall i :: 0 <= i < |cart| ==>
            && r.value.items[i].productId == cart[i].item.id
            && r.value.items[i].name == cart[i].item.name
            && r.value.items[i].quantity == cart[i].quantity
            && r.value.items[i].price == cart[i].item.price)
      && r.value.totalAmount == Cart.Total(cart)
  {
    if |cart| == 0 then Failure(EmptyCart)
    else if info.name == "" || info.phone == "" || info.address == "" then Failure(MissingDetails)
    else
      Success(Payload(
        info.name,
        NormalizePhone(info.phone),
        info.address,
        seq(|cart|, i requires 0 <= i < |cart| => ToOrderItem(cart[i])),
        Cart.Total(cart)))
  }

  /** `price * quantity` of a posted line. */
  function ItemAmount(it: OrderSchema.OrderItem): int {
    it.price * it.quantity
  }

  /** Summing posted lines agrees with summing the cart lines they were copied from. */
  lemma {:induction false} ItemsTotalMatchesCart(cart: seq<Cart.Line>, items: seq<OrderSchema.OrderItem>)
    requires |items| == |cart|
    requires forall i :: 0 <= i < |cart| ==> items[i] == ToOrderItem(cart[i])
    ensures Seqs.SumOf(items, ItemAmount) == Cart.Total(cart)
    decreases |cart|
  {
    if |cart| > 0 {
      ItemsTotalMatchesCart(cart[1..], items[1..]);
    }
  }

  /** The posted total is the sum of the posted lines. */
  lemma PayloadTotalConsistent(cart: seq<Cart.Line>, info: CustomerInfo)
    requires PlaceOrder(cart, info).Success?
    ensures var p := PlaceOrder(cart, info).value; p.totalAmount == Seqs.SumOf(p.items, ItemAmount)
  {
    var p := PlaceOrder(cart, info).value;
    ItemsTotalMatchesCart(cart, p.items);
  }

  /** The body as the order schema receives it: only the posted paths are present. */
  function ToFields(p: Payload): (d: OrderSchema.OrderFields)
    ensures d.subtotal.None? && d.deliveryFee.None?
    ensures d.status.None? && d.paymentStatus.None? && d.paymentMethod.None?
    ensures d.customerName == Some(p.customerName) && d.totalAmount == Some(p.totalAmount)
    ensures d.customerPhone == Some(p.customerPhone) && d.deliveryAddress == Some(p.deliveryAddress)
    ensures d.items.Some? && |d.items.value| == |p.items|
    ensures forall i :: 0 <= i < |p.items| ==>
      d.items.value[i] == OrderSchema.ItemFields(Some(p.items[i].productId), Some(p.items[i].name),
                                                 Some(p.items[i].quantity), Some(p.items[i].price))
  {
    OrderSchema.OrderFields(
      Some(p.customerName), Some(p.customerPhone), Some(p.deliveryAddress),
      Some(seq(|p.items|, i requires 0 <= i < |p.items| =>
        OrderSchema.ItemFields(Some(p.items[i].productId), Some(p.items[i].name),
                               Some(p.items[i].quantity), Some(p.items[i].price)))),
      None, None, Some(p.totalAmount),
      None, None, None, None)
  }

  /**
   * Every order the storefront manages to build is refused by the order schema:
   * the body carries no subtotal and no delivery fee, both of which are required.
   */
  lemma StorefrontOrderRefused(cart: seq<Cart.Line>, info: CustomerInfo, now: int)
    requires PlaceOrder(cart, info).Success?
    ensures var r := OrderSchema.Create(ToFields(PlaceOrder(cart, info).value), now);
      r.Failure? && "subtotal" in r.error && "deliveryFee" in r.error
  {
  }
}
