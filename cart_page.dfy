/**
 * The cart page: the quantity buttons, the total, and the guard before an
 * order is inserted. The cart lines are the ones the menu page built.
 */
module CartPage {
  import opened Common
  import opened Seqs
  import opened Schema
  import opened MenuPage

  function Max(a: int, b: int): int {
    if a >= b then a else b
  }

  /** `updateQuantity(id, change)`: lines with that id get `max(1, quantity + change)`; others stay. */
  function UpdateQuantity(cart: seq<CartLine>, id: string, change: int): (r: seq<CartLine>)
    ensures |r| == |cart|
    ensures forall i :: 0 <= i < |cart| && cart[i].id != id ==> r[i] == cart[i]
    ensures forall i :: 0 <= i < |cart| && cart[i].id == id ==>
      r[i] == cart[i].(quantity := Max(1, cart[i].quantity + change))
    ensures forall i :: 0 <= i < |cart| && cart[i].id == id ==> r[i].quantity >= 1
  {
    seq(|cart|, i requires 0 <= i < |cart| =>
      if cart[i].id == id then cart[i].(quantity := Max(1, cart[i].quantity + change)) else cart[i])
  }

  /** Plus then minus gives the cart back, when the affected quantities are at least one. */
  lemma PlusThenMinus(cart: seq<CartLine>, id: string)
    requires forall i :: 0 <= i < |cart| && cart[i].id == id ==> cart[i].quantity >= 1
    ensures UpdateQuantity(UpdateQuantity(cart, id, 1), id, -1) == cart
  {
    var r := UpdateQuantity(UpdateQuantity(cart, id, 1), id, -1);
    assert forall i :: 0 <= i < |cart| ==> r[i] == cart[i];
  }

  /** Minus on a quantity of one keeps it at one. */
  lemma MinusAtOne(cart: seq<CartLine>, id: string)
    requires forall i :: 0 <= i < |cart| && cart[i].id == id ==> cart[i].quantity == 1
    ensures UpdateQuantity(cart, id, -1) == cart
  {
    var r := UpdateQuantity(cart, id, -1);
    assert forall i :: 0 <= i < |cart| ==> r[i] == cart[i];
  }

  /** The total shown: the sum over lines of price times quantity. */
  function CartTotal(cart: seq<CartLine>): int {
    Sum(cart, (line: CartLine) => line.price * line.quantity)
  }

  /** With unique ids, `+` on a line of quantity at least one raises the total by that line's price. */
  lemma PlusRaisesTotal(cart: seq<CartLine>, k: int)
    requires UniqueIds(cart) && 0 <= k < |cart| && cart[k].quantity >= 1
    ensures CartTotal(UpdateQuantity(cart, cart[k].id, 1)) == CartTotal(cart) + cart[k].price
  {
    var r := UpdateQuantity(cart, cart[k].id, 1);
    var f := (line: CartLine) => line.price * line.quantity;
    assert f(r[k]) == cart[k].price * (cart[k].quantity + 1);
    SumChangeOne(cart, r, f, k, cart[k].price);
  }

  /** The row the page inserts into `orders`. */
  datatype CartOrder = CartOrder(restaurantId: string, items: seq<CartLine>, status: Status, createdAt: int)

  /**
   * `placeOrder`'s guard: no restaurant id or an empty cart inserts nothing;
   * otherwise the whole cart is inserted as a pending order.
   */
  function PlaceOrder(restaurantId: Option<string>, cart: seq<CartLine>, now: int): (r: Option<CartOrder>)
    ensures r.None? <==> !Truthy(restaurantId) || cart == []
    ensures r.Some? ==> r.value == CartOrder(restaurantId.value, cart, Pending, now)
  {
    if !Truthy(restaurantId) || |cart| == 0 then None
    else Some(CartOrder(restaurantId.value, cart, Pending, now))
  }
}
