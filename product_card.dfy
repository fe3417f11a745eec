/** The product card (ag-gearstore/src/components/ProductCard.tsx): which
    variants can be added, which one a quick add picks and at what price,
    the stock label, and the quick-add dialog state. `parseFloat` is a
    parameter. */
module ProductCard {
  import opened Base
  import Api
  import Cart
  import Toaster

  /** `product.variants?.filter(v => v.stock > 0) || []`. */
  function Available(variants: Option<seq<Api.ProductVariant>>): seq<Api.ProductVariant> {
    if variants.None? then [] else InStock(variants.value)
  }

  function InStock(vs: seq<Api.ProductVariant>): seq<Api.ProductVariant> {
    if vs == [] then [] else (if vs[0].stock > 0 then [vs[0]] else []) + InStock(vs[1..])
  }

  /** The available variants are exactly the listed ones with stock, and a
      missing list gives none. */
  lemma {:induction false} InStockMembers(vs: seq<Api.ProductVariant>)
    ensures forall v :: v in InStock(vs) <==> v in vs && v.stock > 0
  {
    if vs != [] {
      InStockMembers(vs[1..]);
      assert vs == [vs[0]] + vs[1..];
    }
  }

  /** The filter keeps the original order: it distributes over
      concatenation. */
  lemma {:induction false} InStockAppend(a: seq<Api.ProductVariant>, b: seq<Api.ProductVariant>)
    ensures InStock(a + b) == InStock(a) + InStock(b)
  {
    if a == [] {
      assert a + b == b;
    } else {
      assert (a + b)[1..] == a[1..] + b;
      InStockAppend(a[1..], b);
    }
  }

  lemma AvailableRules(variants: Option<seq<Api.ProductVariant>>)
    ensures variants.None? ==> Available(variants) == []
    ensures variants.Some? ==> forall v :: v in Available(variants) <==> v in variants.value && v.stock > 0
  {
    if variants.Some? {
      InStockMembers(variants.value);
    }
  }

  /** `available.find(v => v.size === size)`. */
  function FindSize(available: seq<Api.ProductVariant>, size: string): (r: Option<Api.ProductVariant>)
    ensures r.Some? ==> r.value in available && r.value.size == size
    ensures r.None? <==> forall i :: 0 <= i < |available| ==> available[i].size != size
  {
    if available == [] then None
    else if available[0].size == size then Some(available[0])
    else
      var r := FindSize(available[1..], size);
      assert forall i :: 1 <= i < |available| ==> available[i] == available[1..][i - 1];
      r
  }

  /** The variant a quick add picks: the first available one of the selected
      size when a size is selected, else the first available one. */
  function Choose(available: seq<Api.ProductVariant>, selectedSize: string): Option<Api.ProductVariant> {
    if selectedSize != "" then FindSize(available, selectedSize)
    else if available == [] then None
    else Some(available[0])
  }

  /** With a size selected the choice is the first available variant of that
      size, or none when there is no such variant; with no size selected it
      is the first available variant. */
  lemma {:induction false} ChooseRules(available: seq<Api.ProductVariant>, selectedSize: string)
    requires available != []
    ensures selectedSize == "" ==> Choose(available, selectedSize) == Some(available[0])
    ensures selectedSize != "" ==>
      (Choose(available, selectedSize).None? <==> forall i :: 0 <= i < |available| ==> available[i].size != selectedSize)
    ensures selectedSize != "" && Choose(available, selectedSize).Some? ==>
      exists i :: 0 <= i < |available| && Choose(available, selectedSize) == Some(available[i])
        && available[i].size == selectedSize
        && forall j :: 0 <= j < i ==> available[j].size != selectedSize
    decreases |available|
  {
    if selectedSize != "" && available[0].size != selectedSize && |available| > 1 {
      var tail := available[1..];
      ChooseRules(tail, selectedSize);
      if Choose(tail, selectedSize).Some? {
        var i :| 0 <= i < |tail| && Choose(tail, selectedSize) == Some(tail[i]) && tail[i].size == selectedSize
          && forall j :: 0 <= j < i ==> tail[j].size != selectedSize;
        assert available[i + 1] == tail[i];
        assert forall j :: 1 <= j < i + 1 ==> available[j] == tail[j - 1];
      }
    }
  }

  /** The unit price a quick add uses: the variant's override when it is a
      non-empty string, else the product's base price. */
  function UnitPrice(parseFloat: string -> real, variant: Api.ProductVariant, product: Api.Product): real {
    if Truthy(variant.priceOverride) then parseFloat(variant.priceOverride.value) else parseFloat(product.basePrice)
  }

  /** The stock label under the price. */
  function StockLabel(stock: int): string {
    if stock > 10 then "In Stock" else if stock > 0 then NatToString(stock) + " left" else "Sold Out"
  }

  /** "In Stock" exactly above 10, "Sold Out" exactly at 0 or below, and in
      between the count read back from the label followed by " left". */
  lemma StockLabelRules(stock: int)
    ensures StockLabel(stock) == "In Stock" <==> stock > 10
    ensures StockLabel(stock) == "Sold Out" <==> stock <= 0
    ensures 0 < stock <= 10 ==>
      var l := StockLabel(stock);
      |l| > 5 && l[|l| - 5..] == " left" && AllDigits(l[..|l| - 5]) && DigitsValue(l[..|l| - 5]) == stock
  {
    if 0 < stock <= 10 {
      NatToStringRoundTrip(stock);
      var d := NatToString(stock);
      if stock < 10 {
        SingleDigit(stock);
      } else {
        assert d == NatToString(1) + [DigitChar(0)];
      }
      var l := d + " left";
      assert l[..|l| - 5] == d && l[|l| - 5..] == " left";
      assert |l| <= 7;
    }
  }

  const SelectSizeTitle := "Please select a size"
  const AddedTitle := "Added to cart"

  class ProductCardView {
    var showQuickAdd: bool
    var selectedSize: string
    const product: Api.Product
    const cart: Cart.CartStore
    const toasts: Toaster.ToastHub
    const parseFloat: string -> real

    constructor (product: Api.Product, cart: Cart.CartStore, toasts: Toaster.ToastHub, parseFloat: string -> real)
      ensures this.product == product && this.cart == cart && this.toasts == toasts && this.parseFloat == parseFloat
      ensures !showQuickAdd && selectedSize == ""
    {
      this.product := product;
      this.cart := cart;
      this.toasts := toasts;
      this.parseFloat := parseFloat;
      showQuickAdd := false;
      selectedSize := "";
    }

    /** The "Add to Cart" button, shown only when some variant is in stock,
        opens the size dialog. */
    method Open()
      modifies this
      ensures showQuickAdd == (old(showQuickAdd) || Available(product.variants) != [])
      ensures selectedSize == old(selectedSize)
    {
      if Available(product.variants) != [] {
        showQuickAdd := true;
      }
    }

    method SelectSize(size: string)
      modifies this
      ensures selectedSize == size && showQuickAdd == old(showQuickAdd)
    {
      selectedSize := size;
    }

    /** Escape, a backdrop click and Cancel: the dialog closes and the size
        selection is cleared, nothing is added. */
    method Close()
      modifies this
      ensures !showQuickAdd && selectedSize == ""
    {
      showQuickAdd := false;
      selectedSize := "";
    }

    /** `handleQuickAdd`, with `toastId` the id the toast would draw. */
    method QuickAdd(toastId: string)
      modifies this, cart, cart.storage, toasts
      ensures Available(product.variants) == [] ==>
        && cart.items == old(cart.items) && cart.storage.entries == old(cart.storage.entries)
        && cart.initialized == old(cart.initialized)
        && toasts.queue == old(toasts.queue) && toasts.listeners == old(toasts.listeners)
        && toasts.delivered == old(toasts.delivered)
        && showQuickAdd == old(showQuickAdd) && selectedSize == old(selectedSize)
      ensures Available(product.variants) != [] && Choose(Available(product.variants), old(selectedSize)).None? ==>
        && cart.items == old(cart.items) && cart.storage.entries == old(cart.storage.entries)
        && cart.initialized == old(cart.initialized)
        && toasts.queue == old(toasts.queue) + [Toaster.Toast(toastId, Some(SelectSizeTitle), None, Toaster.Destructive)]
        && toasts.listeners == old(toasts.listeners) && toasts.InformedAll()
        && (forall l :: l !in toasts.listeners ==> (l in toasts.delivered <==> l in old(toasts.delivered)))
        && (forall l :: l !in toasts.listeners && l in toasts.delivered ==> toasts.delivered[l] == old(toasts.delivered)[l])
        && showQuickAdd == old(showQuickAdd) && selectedSize == old(selectedSize)
      ensures Available(product.variants) != [] && Choose(Available(product.variants), old(selectedSize)).Some? ==>
        var v := Choose(Available(product.variants), old(selectedSize)).value;
        && v in Available(product.variants) && v.stock > 0
        && cart.items == Cart.AddLine(old(cart.items), product, v.id, v.size, 1, UnitPrice(parseFloat, v, product))
        && toasts.queue == old(toasts.queue) +
             [Toaster.Toast(toastId, Some(AddedTitle), Some(product.name + " (" + v.size + ")"), Toaster.Default)]
        && toasts.listeners == old(toasts.listeners) && toasts.InformedAll()
        && (forall l :: l !in toasts.listeners ==> (l in toasts.delivered <==> l in old(toasts.delivered)))
        && (forall l :: l !in toasts.listeners && l in toasts.delivered ==> toasts.delivered[l] == old(toasts.delivered)[l])
        && !showQuickAdd && selectedSize == ""
        && cart.Synced()
        && cart.initialized == old(cart.initialized)
        && (cart.initialized ==> cart.storage.entries == old(cart.storage.entries)["cart" := cart.codec.encode(cart.items)])
        && (!cart.initialized ==> cart.storage.entries == old(cart.storage.entries))
    {
      var available := Available(product.variants);
      if available == [] {
        return;
      }
      var chosen := Choose(available, selectedSize);
      if chosen.None? {
        var _ := toasts.Enqueue(Toaster.ToastInput(Some(SelectSizeTitle), None, Some(Toaster.Destructive)), toastId);
        return;
      }
      var v := chosen.value;
      assert v in available by {
        if selectedSize == "" {
          assert v == available[0];
        }
      }
      AvailableRules(product.variants);
      var price := UnitPrice(parseFloat, v, product);
      cart.AddItem(product, v.id, v.size, 1, price);
      var _ := toasts.Enqueue(Toaster.ToastInput(Some(AddedTitle), Some(product.name + " (" + v.size + ")"), None), toastId);
      showQuickAdd := false;
      selectedSize := "";
    }
  }
}
