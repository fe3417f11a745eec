/** The cart page (ag-gearstore/src/app/cart/page.tsx): the empty view, the
    per-line quantity and remove controls, "Clear Cart", and the order
    summary. The page keeps no state of its own; its controls act on the
    cart store. */
module CartPage {
  import Cart
  import Currency

  /** What the page shows: the empty view, or the lines with a summary whose
      subtotal and total are both in naira. */
  datatype View = EmptyView | LinesView(subtotal: real, total: real)

  function Render(items: seq<Cart.CartItem>): View {
    if |items| == 0 then EmptyView
    else LinesView(Currency.ConvertToNaira(Cart.Total(items)), Currency.ConvertToNaira(Cart.Total(items)))
  }

  /** The empty view is shown exactly for an empty cart; otherwise subtotal
      and total are the same naira amount, the dollar total times the rate,
      with no shipping added. */
  lemma RenderRules(items: seq<Cart.CartItem>)
    ensures Render(items).EmptyView? <==> items == []
    ensures Render(items).LinesView? ==>
      Render(items).subtotal == Render(items).total &&
      Render(items).total / Currency.UsdToNairaRate == Cart.Total(items)
  {
  }

  /** Adding a new line raises the displayed total by the naira value of that
      line. */
  lemma AddRaisesTotal(items: seq<Cart.CartItem>, x: Cart.CartItem)
    requires !Cart.HasVariant(items, x.variantId) && items != []
    ensures var after := Cart.AddLine(items, x.product, x.variantId, x.size, x.quantity, x.price);
      Render(after).total == Render(items).total + Currency.ConvertToNaira(Cart.LineTotal(x))
  {
    Cart.AddAbsentTotals(items, x.product, x.variantId, x.size, x.quantity, x.price);
    Currency.ConvertAdditive(Cart.Total(items), Cart.LineTotal(x));
  }

  /** Minus on line `i`: disabled at quantity 1 or less, otherwise
      `updateQuantity(v, q - 1)`. It never removes a line. */
  method Minus(cart: Cart.CartStore, i: int)
    requires 0 <= i < |cart.items|
    modifies cart, cart.storage
    ensures old(cart.items[i].quantity) <= 1 ==>
      cart.items == old(cart.items) && cart.storage.entries == old(cart.storage.entries)
    ensures old(cart.items[i].quantity) > 1 ==>
      cart.items == Cart.UpdateLines(old(cart.items), old(cart.items[i].variantId), old(cart.items[i].quantity) - 1)
    ensures |cart.items| == old(|cart.items|)
    ensures old(cart.items[i].quantity) > 1 ==> cart.items[i].quantity == old(cart.items[i].quantity) - 1
    ensures old(cart.Synced()) ==> cart.Synced()
    ensures cart.initialized == old(cart.initialized)
    ensures old(cart.items[i].quantity) > 1 && cart.initialized ==>
      cart.storage.entries == old(cart.storage.entries)["cart" := cart.codec.encode(cart.items)]
    ensures !cart.initialized ==> cart.storage.entries == old(cart.storage.entries)
  {
    var line := cart.items[i];
    if line.quantity <= 1 {
      return;
    }
    ghost var before := cart.items;
    LowerKeepsLine(before, i);
    cart.UpdateQuantity(line.variantId, line.quantity - 1);
  }

  /** Lowering a line that holds more than one item keeps every line and
      lowers that one by one. */
  lemma LowerKeepsLine(items: seq<Cart.CartItem>, i: int)
    requires 0 <= i < |items| && items[i].quantity > 1
    ensures var r := Cart.UpdateLines(items, items[i].variantId, items[i].quantity - 1);
      |r| == |items| && r[i].quantity == items[i].quantity - 1
  {
    Cart.UpdateQuantityCases(items, items[i].variantId, items[i].quantity - 1);
  }

  /** Plus on line `i`: `updateQuantity(v, q + 1)`; for a line holding at
      least one item it keeps every line and raises this one by one. */
  method Plus(cart: Cart.CartStore, i: int)
    requires 0 <= i < |cart.items|
    modifies cart, cart.storage
    ensures cart.items == Cart.UpdateLines(old(cart.items), old(cart.items[i].variantId), old(cart.items[i].quantity) + 1)
    ensures old(cart.items[i].quantity) >= 0 ==>
      |cart.items| == old(|cart.items|) && cart.items[i].quantity == old(cart.items[i].quantity) + 1
    ensures cart.Synced()
    ensures cart.initialized == old(cart.initialized)
    ensures cart.initialized ==> cart.storage.entries == old(cart.storage.entries)["cart" := cart.codec.encode(cart.items)]
    ensures !cart.initialized ==> cart.storage.entries == old(cart.storage.entries)
  {
    var line := cart.items[i];
    Cart.UpdateQuantityCases(cart.items, line.variantId, line.quantity + 1);
    cart.UpdateQuantity(line.variantId, line.quantity + 1);
  }

  /** The trash button on line `i`: `removeItem` with that line's variant, so
      the cart loses at least that line. */
  method Trash(cart: Cart.CartStore, i: int)
    requires 0 <= i < |cart.items|
    modifies cart, cart.storage
    ensures cart.items == Cart.WithoutVariant(old(cart.items), old(cart.items[i].variantId))
    ensures |cart.items| < old(|cart.items|)
    ensures forall x :: x in cart.items ==> x.variantId != old(cart.items[i].variantId)
    ensures cart.Synced()
    ensures cart.initialized == old(cart.initialized)
    ensures cart.initialized ==> cart.storage.entries == old(cart.storage.entries)["cart" := cart.codec.encode(cart.items)]
    ensures !cart.initialized ==> cart.storage.entries == old(cart.storage.entries)
  {
    var v := cart.items[i].variantId;
    assert Cart.HasVariant(cart.items, v);
    Cart.RemoveNoOpIffAbsent(cart.items, v);
    Cart.WithoutMembers(cart.items, v);
    cart.RemoveItem(v);
  }

  /** "Clear Cart". */
  method Clear(cart: Cart.CartStore)
    modifies cart, cart.storage
    ensures cart.items == [] && Render(cart.items).EmptyView?
    ensures cart.Synced()
    ensures cart.initialized == old(cart.initialized)
    ensures cart.initialized ==> cart.storage.entries == old(cart.storage.entries)["cart" := cart.codec.encode(cart.items)]
    ensures !cart.initialized ==> cart.storage.entries == old(cart.storage.entries)
  {
    cart.ClearCart();
  }
}
