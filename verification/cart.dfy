/**
 * The storefront's cart bookkeeping: the per-product quantity selector and the
 * cart reducers, each a pure function of the previous state.
 */
module Cart {
  import opened Wrappers
  import Seqs

  /** A catalogue entry as the storefront holds it. */
  datatype Listing = Listing(id: string, name: string, price: int)

  /** A cart line: the listing copied into the line, with the chosen quantity. */
  datatype Line = Line(item: Listing, quantity: int)

  /** The per-product quantity selector, keyed by product id. */
  type Selector = map<string, int>

  function Max(a: int, b: int): int {
    if a < b then b else a
  }

  /** The selector's reading for `id`: an absent or zero entry reads as 1. */
  function Selected(sel: Selector, id: string): (q: int)
    ensures q != 0
    ensures id !in sel ==> q == 1
    ensures id in sel && sel[id] == 0 ==> q == 1
    ensures id in sel && sel[id] != 0 ==> q == sel[id]
  {
    if id in sel && sel[id] != 0 then sel[id] else 1
  }

  predicate SelectorOk(sel: Selector) {
    forall k :: k in sel ==> sel[k] >= 1
  }

  /** Pressing minus (`delta == -1`) or plus (`delta == 1`) on a product's selector. */
  function StepSelector(sel: Selector, id: string, delta: int): (r: Selector)
    ensures r.Keys == sel.Keys + {id}
    ensures r[id] >= 1
    ensures Selected(sel, id) + delta >= 1 ==> r[id] == Selected(sel, id) + delta
    ensures Selected(sel, id) + delta < 1 ==> r[id] == 1
    ensures forall k :: k in sel && k != id ==> r[k] == sel[k]
    ensures SelectorOk(sel) ==> SelectorOk(r)
  {
    sel[id := Max(1, Selected(sel, id) + delta)]
  }

  /** The cart holds a line for product `id`. */
  predicate HasLine(cart: seq<Line>, id: string) {
    exists i :: 0 <= i < |cart| && cart[i].item.id == id
  }

  predicate DistinctIds(cart: seq<Line>) {
    forall i, j :: 0 <= i < j < |cart| ==> cart[i].item.id != cart[j].item.id
  }

  /** The cart invariant: one line per product, each with a positive quantity. */
  predicate CartOk(cart: seq<Line>) {
    DistinctIds(cart) && forall i :: 0 <= i < |cart| ==> cart[i].quantity >= 1
  }

  /** Rewrites the quantity of every line for product `id` with `f`, leaving the rest alone. */
  function Adjust(cart: seq<Line>, id: string, f: int -> int): (r: seq<Line>)
    ensures |r| == |cart|
    ensures forall i :: 0 <= i < |r| ==> r[i].item == cart[i].item
    ensures forall i :: 0 <= i < |r| && cart[i].item.id == id ==> r[i].quantity == f(cart[i].quantity)
    ensures forall i :: 0 <= i < |r| && cart[i].item.id != id ==> r[i] == cart[i]
  {
    if |cart| == 0 then []
    else
      var head := if cart[0].item.id == id then cart[0].(quantity := f(cart[0].quantity)) else cart[0];
      [head] + Adjust(cart[1..], id, f)
  }

  /** With one line per product, adjusting a product rewrites exactly its one line. */
  lemma AdjustOne(cart: seq<Line>, id: string, f: int -> int, k: int)
    requires DistinctIds(cart) && 0 <= k < |cart| && cart[k].item.id == id
    ensures Adjust(cart, id, f) == cart[k := cart[k].(quantity := f(cart[k].quantity))]
  {
    var r := Adjust(cart, id, f);
    var s := cart[k := cart[k].(quantity := f(cart[k].quantity))];
    forall i | 0 <= i < |r| ensures r[i] == s[i] {
      if i != k {
        assert cart[i].item.id != id by {
          if i < k { assert cart[i].item.id != cart[k].item.id; }
          else { assert cart[k].item.id != cart[i].item.id; }
        }
      }
    }
  }

  /** The reducer of adding `qty` of `item`: merge into its line, or append a new line. */
  function AddLine(cart: seq<Line>, item: Listing, qty: int): (r: seq<Line>)
    ensures HasLine(cart, item.id) ==>
      && |r| == |cart|
      && (forall i :: 0 <= i < |r| ==> r[i].item == cart[i].item)
      && (forall i :: 0 <= i < |r| && cart[i].item.id == item.id ==> r[i].quantity == cart[i].quantity + qty)
      && (forall i :: 0 <= i < |r| && cart[i].item.id != item.id ==> r[i] == cart[i])
    ensures !HasLine(cart, item.id) ==> r == cart + [Line(item, qty)]
  {
    if HasLine(cart, item.id) then Adjust(cart, item.id, q => q + qty)
    else cart + [Line(item, qty)]
  }

  /** Adding a product already in the cart raises that one line by `qty` and changes nothing else. */
  lemma AddExisting(cart: seq<Line>, item: Listing, qty: int, k: int)
    requires DistinctIds(cart) && 0 <= k < |cart| && cart[k].item.id == item.id
    ensures AddLine(cart, item, qty) == cart[k := cart[k].(quantity := cart[k].quantity + qty)]
  {
    AdjustOne(cart, item.id, q => q + qty, k);
  }

  /** Adding keeps one line per product and positive quantities, given a positive amount. */
  lemma AddLineKeepsOk(cart: seq<Line>, item: Listing, qty: int)
    requires CartOk(cart) && qty >= 1
    ensures CartOk(AddLine(cart, item, qty))
  {
  }

  /** `item.price * item.quantity` of one line. */
  function LineTotal(l: Line): int {
    l.item.price * l.quantity
  }

  function LineQuantity(l: Line): int {
    l.quantity
  }

  /** The cart total shown at checkout and sent with the order. */
  function Total(cart: seq<Line>): (r: int)
    ensures |cart| == 0 ==> r == 0
    ensures CartOk(cart) && (forall i :: 0 <= i < |cart| ==> cart[i].item.price >= 0) ==> r >= 0
  {
    LineTotalsNonNegative(cart);
    Seqs.SumOf(cart, LineTotal)
  }

  lemma LineTotalsNonNegative(cart: seq<Line>)
    ensures CartOk(cart) && (forall i :: 0 <= i < |cart| ==> cart[i].item.price >= 0) ==>
      Seqs.SumOf(cart, LineTotal) >= 0
  {
    if CartOk(cart) && (forall i :: 0 <= i < |cart| ==> cart[i].item.price >= 0) {
      forall i | 0 <= i < |cart| ensures LineTotal(cart[i]) >= 0 {
        NonNegativeProduct(cart[i].item.price, cart[i].quantity);
      }
      Seqs.SumOfNonNegative(cart, LineTotal);
    }
  }

  lemma NonNegativeProduct(a: int, b: int)
    requires a >= 0 && b >= 0
    ensures a * b >= 0
  {
  }

  /** The total is a left-to-right reduce: one more line adds its price times its quantity. */
  lemma TotalAppend(cart: seq<Line>, l: Line)
    ensures Total(cart + [l]) == Total(cart) + l.item.price * l.quantity
  {
    Seqs.SumOfAppend(cart, [l], LineTotal);
  }

  /** The number of units in the cart; a valid cart holds at least one unit per line. */
  function Units(cart: seq<Line>): (r: int)
    ensures |cart| == 0 ==> r == 0
    ensures CartOk(cart) ==> r >= |cart|
  {
    LinesHoldUnits(cart);
    Seqs.SumOf(cart, LineQuantity)
  }

  lemma LinesHoldUnits(cart: seq<Line>)
    ensures CartOk(cart) ==> Seqs.SumOf(cart, LineQuantity) >= |cart|
  {
    if CartOk(cart) {
      Seqs.SumOfAtLeastLength(cart, LineQuantity);
    }
  }

  /** The cart badge: hidden for an empty cart, otherwise the number of units. */
  function Badge(cart: seq<Line>): (r: Option<int>)
    ensures r.Some? <==> |cart| > 0
    ensures r.Some? ==> r.value == Units(cart)
    ensures r.Some? && CartOk(cart) ==> r.value >= |cart|
  {
    if |cart| == 0 then None else Some(Units(cart))
  }

  /** Adding `qty` of a product already in the cart raises the units by `qty` and the total by `qty` times that line's price. */
  lemma AddExistingSums(cart: seq<Line>, item: Listing, qty: int, k: int)
    requires DistinctIds(cart) && 0 <= k < |cart| && cart[k].item.id == item.id
    ensures Units(AddLine(cart, item, qty)) == Units(cart) + qty
    ensures Total(AddLine(cart, item, qty)) == Total(cart) + cart[k].item.price * qty
  {
    var l := cart[k].(quantity := cart[k].quantity + qty);
    AddExisting(cart, item, qty, k);
    Seqs.SumOfUpdate(cart, k, l, LineQuantity);
    Seqs.SumOfUpdate(cart, k, l, LineTotal);
    assert LineTotal(l) == LineTotal(cart[k]) + cart[k].item.price * qty;
  }

  /** Adding `qty` of a product not yet in the cart raises the units by `qty` and the total by `qty` times its price. */
  lemma AddNewSums(cart: seq<Line>, item: Listing, qty: int)
    requires !HasLine(cart, item.id)
    ensures Units(AddLine(cart, item, qty)) == Units(cart) + qty
    ensures Total(AddLine(cart, item, qty)) == Total(cart) + item.price * qty
  {
    Seqs.SumOfAppend(cart, [Line(item, qty)], LineQuantity);
    Seqs.SumOfAppend(cart, [Line(item, qty)], LineTotal);
  }

  /** Either way, adding `qty` of a product raises the units by `qty`. */
  lemma AddLineUnits(cart: seq<Line>, item: Listing, qty: int)
    requires DistinctIds(cart)
    ensures Units(AddLine(cart, item, qty)) == Units(cart) + qty
  {
    if HasLine(cart, item.id) {
      var k :| 0 <= k < |cart| && cart[k].item.id == item.id;
      AddExistingSums(cart, item, qty, k);
    } else {
      AddNewSums(cart, item, qty);
    }
  }

  /** Plus or minus on a cart line: the line's quantity moves by `delta` but never below 1. */
  function UpdateQty(cart: seq<Line>, id: string, delta: int): (r: seq<Line>)
    ensures |r| == |cart|
    ensures forall i :: 0 <= i < |r| ==> r[i].item == cart[i].item
    ensures forall i :: 0 <= i < |r| && cart[i].item.id == id ==>
      && r[i].quantity >= 1
      && (cart[i].quantity + delta >= 1 ==> r[i].quantity == cart[i].quantity + delta)
      && (cart[i].quantity + delta < 1 ==> r[i].quantity == 1)
    ensures forall i :: 0 <= i < |r| && cart[i].item.id != id ==> r[i] == cart[i]
    ensures CartOk(cart) ==> CartOk(r)
  {
    var f := q => Max(1, q + delta);
    var r := Adjust(cart, id, f);
    assert forall i :: 0 <= i < |r| && cart[i].item.id == id ==> r[i].quantity == Max(1, cart[i].quantity + delta);
    r
  }

  /** Removing a product: its lines go, the others stay in their order. */
  function Remove(cart: seq<Line>, id: string): (r: seq<Line>)
    ensures !HasLine(r, id)
    ensures Seqs.IsSubsequence(r, cart)
    ensures forall i :: 0 <= i < |cart| && cart[i].item.id != id ==> cart[i] in r
    ensures forall i :: 0 <= i < |r| ==> r[i] in cart
    ensures forall x :: multiset(r)[x] == (if x.item.id != id then multiset(cart)[x] else 0)
  {
    var keep := (l: Line) => l.item.id != id;
    var r := Seqs.Filter(cart, keep);
    Seqs.SubsequenceMembers(r, cart);
    Seqs.FilterCounts(cart, keep);
    r
  }

  /** Dropping lines from a cart keeps the cart invariant. */
  lemma {:induction false} SubsequenceKeepsOk(a: seq<Line>, b: seq<Line>)
    requires CartOk(b) && Seqs.IsSubsequence(a, b)
    ensures CartOk(a)
    decreases |b|
  {
    if |a| > 0 {
      assert CartOk(b[1..]) by {
        assert forall i :: 0 <= i < |b[1..]| ==> b[1..][i] == b[i + 1];
      }
      if a[0] == b[0] && Seqs.IsSubsequence(a[1..], b[1..]) {
        SubsequenceKeepsOk(a[1..], b[1..]);
        Seqs.SubsequenceMembers(a[1..], b[1..]);
        forall j | 1 <= j < |a| ensures a[0].item.id != a[j].item.id {
          assert a[j] == a[1..][j - 1];
          var m :| 0 <= m < |b[1..]| && b[1..][m] == a[j];
          assert b[m + 1] == a[j];
        }
        forall i, j | 0 <= i < j < |a| ensures a[i].item.id != a[j].item.id {
          if i > 0 {
            assert a[i] == a[1..][i - 1] && a[j] == a[1..][j - 1];
          }
        }
        forall i | 0 <= i < |a| ensures a[i].quantity >= 1 {
          if i > 0 { assert a[i] == a[1..][i - 1]; }
        }
      } else {
        SubsequenceKeepsOk(a, b[1..]);
      }
    }
  }

  /** Removing a product keeps the cart invariant. */
  lemma RemoveKeepsOk(cart: seq<Line>, id: string)
    requires CartOk(cart)
    ensures CartOk(Remove(cart, id))
  {
    SubsequenceKeepsOk(Remove(cart, id), cart);
  }

  /** The storefront's cart state: the lines and the selector. */
  datatype Shop = Shop(cart: seq<Line>, selector: Selector)

  predicate ShopOk(s: Shop) {
    CartOk(s.cart) && SelectorOk(s.selector)
  }

  /** Adding a product: the selected quantity goes into the cart and the selector resets to 1. */
  function AddToCart(s: Shop, item: Listing): (r: Shop)
    ensures r.cart == AddLine(s.cart, item, Selected(s.selector, item.id))
    ensures Selected(r.selector, item.id) == 1
    ensures r.selector.Keys == s.selector.Keys + {item.id} && r.selector[item.id] == 1
    ensures forall k :: k in s.selector && k != item.id ==> k in r.selector && r.selector[k] == s.selector[k]
    ensures ShopOk(s) ==> ShopOk(r)
    ensures ShopOk(s) ==> Units(r.cart) == Units(s.cart) + Selected(s.selector, item.id)
  {
    var qty := Selected(s.selector, item.id);
    AddPositiveQuantity(s.cart, item, qty);
    Shop(AddLine(s.cart, item, qty), s.selector[item.id := 1])
  }

  lemma AddPositiveQuantity(cart: seq<Line>, item: Listing, qty: int)
    ensures CartOk(cart) && qty >= 1 ==>
      CartOk(AddLine(cart, item, qty)) && Units(AddLine(cart, item, qty)) == Units(cart) + qty
  {
    if CartOk(cart) && qty >= 1 {
      AddLineKeepsOk(cart, item, qty);
      AddLineUnits(cart, item, qty);
    }
  }
}
