/** The client cart store (ag-gearstore/src/contexts/CartContext.tsx): an
    ordered list of line items keyed by variant id, persisted under the `cart`
    key of local storage once the stored copy has been loaded.

    The list operations are first defined on values (AddLine, WithoutVariant,
    UpdateLines, Total, ItemCount); the `CartStore` class holds the React state
    and its methods replace `items` by those functions of the old list. */
module Cart {
  import opened Base
  import Api
  import Browser

  /** A line: the product, its variant, size, quantity and the unit price
      captured when the line was first added. */
  datatype CartItem = CartItem(product: Api.Product, variantId: int, size: string, quantity: int, price: real)

  /** No two lines share a variant id. */
  predicate UniqueVariants(items: seq<CartItem>) {
    forall i, j :: 0 <= i < j < |items| ==> items[i].variantId != items[j].variantId
  }

  predicate HasVariant(items: seq<CartItem>, v: int) {
    exists i :: 0 <= i < |items| && items[i].variantId == v
  }

  /** `findIndex(item => item.variantId === v)`: the first matching position,
      or -1 when no line matches. */
  function IndexOf(items: seq<CartItem>, v: int): (i: int)
    ensures -1 <= i < |items|
    ensures i >= 0 ==> items[i].variantId == v && forall j :: 0 <= j < i ==> items[j].variantId != v
    ensures i == -1 <==> !HasVariant(items, v)
  {
    if items == [] then -1
    else if items[0].variantId == v then 0
    else
      var r := IndexOf(items[1..], v);
      if r == -1 then
        assert forall j :: 1 <= j < |items| ==> items[j] == items[1..][j - 1];
        -1
      else r + 1
  }

  // ---------------------------------------------------------------------------
  // The list operations on values

  /** `addItem`'s updater: merge into the first line of the variant (its
      quantity grows, everything else about it stays), or append a new line. */
  function AddLine(items: seq<CartItem>, product: Api.Product, v: int, size: string, quantity: int, price: real): seq<CartItem> {
    var i := IndexOf(items, v);
    if i >= 0 then items[i := items[i].(quantity := items[i].quantity + quantity)]
    else items + [CartItem(product, v, size, quantity, price)]
  }

  /** `removeItem`'s updater: `filter(item => item.variantId !== v)`. */
  function WithoutVariant(items: seq<CartItem>, v: int): (r: seq<CartItem>)
    ensures |r| <= |items|
  {
    if items == [] then []
    else (if items[0].variantId == v then [] else [items[0]]) + WithoutVariant(items[1..], v)
  }

  /** The filter keeps exactly the lines of other variants. */
  lemma {:induction false} WithoutMembers(items: seq<CartItem>, v: int)
    ensures forall x :: x in WithoutVariant(items, v) <==> x in items && x.variantId != v
  {
    if items != [] {
      WithoutMembers(items[1..], v);
      assert items == [items[0]] + items[1..];
    }
  }

  /** `map(item => item.variantId === v ? {...item, quantity} : item)`. */
  function WithQuantity(items: seq<CartItem>, v: int, quantity: int): (r: seq<CartItem>)
    ensures |r| == |items|
    ensures forall j :: 0 <= j < |items| ==>
      r[j] == if items[j].variantId == v then items[j].(quantity := quantity) else items[j]
  {
    if items == [] then
      []
    else
      var x := if items[0].variantId == v then items[0].(quantity := quantity) else items[0];
      [x] + WithQuantity(items[1..], v, quantity)
  }

  /** `updateQuantity`: a quantity of zero or less removes the variant. */
  function UpdateLines(items: seq<CartItem>, v: int, quantity: int): seq<CartItem> {
    if quantity <= 0 then WithoutVariant(items, v) else WithQuantity(items, v, quantity)
  }

  /** A price times a quantity. */
  function Cost(price: real, quantity: int): real {
    price * (quantity as real)
  }

  function LineTotal(x: CartItem): real {
    Cost(x.price, x.quantity)
  }

  /** `getTotal`: `reduce((t, x) => t + x.price * x.quantity, 0)`. */
  function Total(items: seq<CartItem>): real {
    if items == [] then 0.0 else Total(items[..|items| - 1]) + LineTotal(items[|items| - 1])
  }

  /** `getItemCount`: `reduce((n, x) => n + x.quantity, 0)`. */
  function ItemCount(items: seq<CartItem>): int {
    if items == [] then 0 else ItemCount(items[..|items| - 1]) + items[|items| - 1].quantity
  }

  // ---------------------------------------------------------------------------
  // Properties of the operations

  /** Adding a variant that is already in the cart grows the quantity of its
      line by the given amount; that line keeps its price, size and product,
      every other line is unchanged and the number of lines stays the same. */
  lemma AddExistingMerges(items: seq<CartItem>, product: Api.Product, v: int, size: string, quantity: int, price: real)
    requires HasVariant(items, v)
    ensures var r := AddLine(items, product, v, size, quantity, price);
      var i := IndexOf(items, v);
      && |r| == |items| && 0 <= i
      && r[i].quantity == items[i].quantity + quantity
      && r[i].price == items[i].price && r[i].size == items[i].size
      && r[i].product == items[i].product && r[i].variantId == v
      && forall j :: 0 <= j < |items| && j != i ==> r[j] == items[j]
  {
  }

  /** Adding an absent variant appends exactly one line with the given fields
      after the unchanged earlier lines. */
  lemma AddAbsentAppends(items: seq<CartItem>, product: Api.Product, v: int, size: string, quantity: int, price: real)
    requires !HasVariant(items, v)
    ensures AddLine(items, product, v, size, quantity, price) == items + [CartItem(product, v, size, quantity, price)]
  {
  }

  /** Two adds of the same new variant leave one line whose quantity is the sum
      and whose price, size and product are those of the first add. */
  lemma AddTwiceKeepsFirstPrice(items: seq<CartItem>, p1: Api.Product, p2: Api.Product, v: int,
                                s1: string, s2: string, q1: int, q2: int, price1: real, price2: real)
    requires !HasVariant(items, v)
    ensures AddLine(AddLine(items, p1, v, s1, q1, price1), p2, v, s2, q2, price2)
         == items + [CartItem(p1, v, s1, q1 + q2, price1)]
  {
    var once := items + [CartItem(p1, v, s1, q1, price1)];
    assert once[|items|].variantId == v;
    assert IndexOf(once, v) == |items|;
  }

  lemma {:induction false} WithoutAbsentIsIdentity(items: seq<CartItem>, v: int)
    requires !HasVariant(items, v)
    ensures WithoutVariant(items, v) == items
  {
    if items != [] {
      assert items[0].variantId != v;
      forall j | 0 <= j < |items[1..]| ensures items[1..][j].variantId != v {
        assert items[1..][j] == items[j + 1];
      }
      WithoutAbsentIsIdentity(items[1..], v);
      assert items == [items[0]] + items[1..];
    }
  }

  /** `removeItem` leaves the list as it was exactly when the variant is
      absent; when it is present, the list shrinks. */
  lemma RemoveNoOpIffAbsent(items: seq<CartItem>, v: int)
    ensures WithoutVariant(items, v) == items <==> !HasVariant(items, v)
    ensures HasVariant(items, v) ==> |WithoutVariant(items, v)| < |items|
  {
    if HasVariant(items, v) {
      RemoveShrinks(items, v);
    } else {
      WithoutAbsentIsIdentity(items, v);
    }
  }

  lemma {:induction false} RemoveShrinks(items: seq<CartItem>, v: int)
    requires HasVariant(items, v)
    ensures |WithoutVariant(items, v)| < |items|
  {
    if items[0].variantId != v {
      var i :| 0 <= i < |items| && items[i].variantId == v;
      assert items[1..][i - 1] == items[i];
      RemoveShrinks(items[1..], v);
    }
  }

  /** Filtering distributes over concatenation. */
  lemma {:induction false} WithoutAppend(a: seq<CartItem>, b: seq<CartItem>, v: int)
    ensures WithoutVariant(a + b, v) == WithoutVariant(a, v) + WithoutVariant(b, v)
  {
    if a != [] {
      WithoutAppend(a[1..], b, v);
      assert (a + b)[0] == a[0] && (a + b)[1..] == a[1..] + b;
    } else {
      assert a + b == b;
    }
  }

  /** `removeItem` keeps the other lines in order: for a cart split as
      `a + [x] + b` with `x` the variant's only line, it yields `a + b`. */
  lemma RemoveKeepsOthersInOrder(a: seq<CartItem>, x: CartItem, b: seq<CartItem>)
    requires !HasVariant(a, x.variantId) && !HasVariant(b, x.variantId)
    ensures WithoutVariant(a + [x] + b, x.variantId) == a + b
  {
    var v := x.variantId;
    WithoutAppend(a + [x], b, v);
    WithoutAppend(a, [x], v);
    assert WithoutVariant([x], v) == [] by {
      assert [x][1..] == [];
    }
    WithoutAbsentIsIdentity(a, v);
    WithoutAbsentIsIdentity(b, v);
    assert WithoutVariant(a + [x], v) == a;
  }

  /** Round trip: adding an absent variant and then removing it restores the
      previous list, and so the previous total. */
  lemma AddThenRemoveRestores(items: seq<CartItem>, product: Api.Product, v: int, size: string, quantity: int, price: real)
    requires !HasVariant(items, v)
    ensures WithoutVariant(AddLine(items, product, v, size, quantity, price), v) == items
    ensures Total(WithoutVariant(AddLine(items, product, v, size, quantity, price), v)) == Total(items)
  {
    RemoveKeepsOthersInOrder(items, CartItem(product, v, size, quantity, price), []);
    assert items + [CartItem(product, v, size, quantity, price)] + [] == AddLine(items, product, v, size, quantity, price);
  }

  /** `updateQuantity(v, q)` with `q <= 0` is `removeItem(v)`; with `q > 0` it
      replaces the quantity of the matching lines only, keeping the line count
      and order; for an absent variant it changes nothing. */
  lemma UpdateQuantityCases(items: seq<CartItem>, v: int, quantity: int)
    ensures quantity <= 0 ==> UpdateLines(items, v, quantity) == WithoutVariant(items, v)
    ensures quantity > 0 ==> var r := UpdateLines(items, v, quantity);
      |r| == |items| &&
      forall j :: 0 <= j < |items| ==>
        if items[j].variantId == v then r[j] == items[j].(quantity := quantity) else r[j] == items[j]
    ensures !HasVariant(items, v) ==> UpdateLines(items, v, quantity) == items
  {
    if !HasVariant(items, v) {
      if quantity <= 0 {
        WithoutAbsentIsIdentity(items, v);
      } else {
        assert WithQuantity(items, v, quantity) == items;
      }
    }
  }

  // ---------------------------------------------------------------------------
  // At most one line per variant is preserved

  lemma AddPreservesUnique(items: seq<CartItem>, product: Api.Product, v: int, size: string, quantity: int, price: real)
    requires UniqueVariants(items)
    ensures UniqueVariants(AddLine(items, product, v, size, quantity, price))
  {
  }

  lemma {:induction false} RemovePreservesUnique(items: seq<CartItem>, v: int)
    requires UniqueVariants(items)
    ensures UniqueVariants(WithoutVariant(items, v))
  {
    if items != [] {
      var tail := items[1..];
      assert UniqueVariants(tail) by {
        forall i, j | 0 <= i < j < |tail| ensures tail[i].variantId != tail[j].variantId {
          assert tail[i] == items[i + 1] && tail[j] == items[j + 1];
        }
      }
      RemovePreservesUnique(tail, v);
      WithoutMembers(tail, v);
      var rt := WithoutVariant(tail, v);
      if items[0].variantId != v {
        var r := [items[0]] + rt;
        forall j | 1 <= j < |r| ensures r[0].variantId != r[j].variantId {
          assert r[j] in rt;
          assert r[j] in tail;
        }
      }
    }
  }

  lemma UpdatePreservesUnique(items: seq<CartItem>, v: int, quantity: int)
    requires UniqueVariants(items)
    ensures UniqueVariants(UpdateLines(items, v, quantity))
  {
    if quantity <= 0 {
      RemovePreservesUnique(items, v);
    }
  }

  // ---------------------------------------------------------------------------
  // The two folds

  lemma {:induction false} TotalAppend(a: seq<CartItem>, b: seq<CartItem>)
    ensures Total(a + b) == Total(a) + Total(b)
    decreases |b|
  {
    if b == [] {
      assert a + b == a;
    } else {
      var b' := b[..|b| - 1];
      TotalAppend(a, b');
      assert (a + b)[..|a + b| - 1] == a + b';
      assert b[..|b| - 1] == b';
    }
  }

  lemma {:induction false} ItemCountAppend(a: seq<CartItem>, b: seq<CartItem>)
    ensures ItemCount(a + b) == ItemCount(a) + ItemCount(b)
    decreases |b|
  {
    if b == [] {
      assert a + b == a;
    } else {
      var b' := b[..|b| - 1];
      ItemCountAppend(a, b');
      assert (a + b)[..|a + b| - 1] == a + b';
    }
  }

  /** Appending a new line adds its price times its quantity to the total and
      its quantity to the item count. */
  lemma AddAbsentTotals(items: seq<CartItem>, product: Api.Product, v: int, size: string, quantity: int, price: real)
    requires !HasVariant(items, v)
    ensures Total(AddLine(items, product, v, size, quantity, price)) == Total(items) + Cost(price, quantity)
    ensures ItemCount(AddLine(items, product, v, size, quantity, price)) == ItemCount(items) + quantity
  {
    var x := CartItem(product, v, size, quantity, price);
    TotalAppend(items, [x]);
    ItemCountAppend(items, [x]);
    assert [x][..0] == [];
  }

  /** Merging into an existing line adds that line's own (first-added) price
      times the added quantity to the total, whatever price was passed. */
  lemma AddExistingTotals(items: seq<CartItem>, product: Api.Product, v: int, size: string, quantity: int, price: real)
    requires HasVariant(items, v)
    ensures var i := IndexOf(items, v);
      0 <= i &&
      Total(AddLine(items, product, v, size, quantity, price)) == Total(items) + Cost(items[i].price, quantity) &&
      ItemCount(AddLine(items, product, v, size, quantity, price)) == ItemCount(items) + quantity
  {
    var i := IndexOf(items, v);
    var r := AddLine(items, product, v, size, quantity, price);
    AddExistingIsUpdate(items, product, v, size, quantity, price);
    ReplaceAtTotals(items, i, quantity, r);
  }

  lemma AddExistingIsUpdate(items: seq<CartItem>, product: Api.Product, v: int, size: string, quantity: int, price: real)
    requires HasVariant(items, v)
    ensures var i := IndexOf(items, v);
      0 <= i < |items| &&
      AddLine(items, product, v, size, quantity, price) == items[i := items[i].(quantity := items[i].quantity + quantity)]
  {
  }

  /** Growing the quantity of line `i` by `q` adds its price times `q` to the
      total and `q` to the item count. */
  lemma ReplaceAtTotals(items: seq<CartItem>, i: int, q: int, r: seq<CartItem>)
    requires 0 <= i < |items| && r == items[i := items[i].(quantity := items[i].quantity + q)]
    ensures Total(r) == Total(items) + Cost(items[i].price, q)
    ensures ItemCount(r) == ItemCount(items) + q
  {
    var x := items[i];
    var y := x.(quantity := x.quantity + q);
    ReplaceTotal(items, i, y);
    ReplaceCount(items, i, y);
    ShiftByLine(Total(items), x, q);
  }

  lemma ShiftByLine(t: real, x: CartItem, quantity: int)
    ensures t - LineTotal(x) + LineTotal(x.(quantity := x.quantity + quantity)) == t + Cost(x.price, quantity)
  {
    assert (x.quantity + quantity) as real == x.quantity as real + quantity as real;
  }

  /** Replacing one line changes the total by the difference of that line. */
  lemma {:induction false} ReplaceTotal(items: seq<CartItem>, i: int, y: CartItem)
    requires 0 <= i < |items|
    ensures Total(items[i := y]) == Total(items) - LineTotal(items[i]) + LineTotal(y)
    decreases |items|
  {
    var n := |items| - 1;
    var r := items[i := y];
    if i == n {
      assert r[..n] == items[..n];
    } else {
      ReplaceTotal(items[..n], i, y);
      assert r[..n] == items[..n][i := y];
    }
  }

  /** Replacing one line changes the item count by the difference of that
      line. */
  lemma {:induction false} ReplaceCount(items: seq<CartItem>, i: int, y: CartItem)
    requires 0 <= i < |items|
    ensures ItemCount(items[i := y]) == ItemCount(items) - items[i].quantity + y.quantity
    decreases |items|
  {
    var n := |items| - 1;
    var r := items[i := y];
    if i == n {
      assert r[..n] == items[..n];
    } else {
      ReplaceCount(items[..n], i, y);
      assert r[..n] == items[..n][i := y];
    }
  }

  /** Both folds are 0 for an empty cart, so after `clearCart`. */
  lemma EmptyCartTotals()
    ensures Total([]) == 0.0 && ItemCount([]) == 0
  {
  }

  /** The item count is the sum of quantities, not the number of lines: with
      every quantity at least 1 it is at least the number of lines, and it
      equals it only when every quantity is exactly 1. */
  lemma {:induction false} ItemCountAtLeastLines(items: seq<CartItem>)
    requires forall x :: x in items ==> x.quantity >= 1
    ensures ItemCount(items) >= |items|
    ensures ItemCount(items) == |items| <==> forall x :: x in items ==> x.quantity == 1
  {
    if items != [] {
      var init := items[..|items| - 1];
      assert forall x :: x in init ==> x in items;
      ItemCountAtLeastLines(init);
      if ItemCount(items) == |items| {
        forall x | x in items ensures x.quantity == 1 {
          if x != items[|items| - 1] {
            assert x in init;
          }
        }
      }
    }
  }

  // ---------------------------------------------------------------------------
  // Persistence

  /** `JSON.stringify` / `JSON.parse` of the item list. `decode` yields None for
      text that does not parse as a cart. */
  datatype CartCodec = CartCodec(encode: seq<CartItem> -> string, decode: string -> Option<seq<CartItem>>)

  /** What a faithful codec does for one list: its encoding is not the empty
      string and parsing it gives the list back. (JSON does this for every
      list whose prices are finite numbers, not for every real price, so the
      hypothesis is stated per list.) */
  ghost predicate RoundTrips(codec: CartCodec, items: seq<CartItem>) {
    codec.encode(items) != "" && codec.decode(codec.encode(items)) == Some(items)
  }

  /** The load effect: the stored `cart` entry replaces the list when it is
      truthy and parses; a missing, empty or unparsable entry leaves it. */
  function Rehydrate(codec: CartCodec, saved: Option<string>, current: seq<CartItem>): seq<CartItem> {
    if Truthy(saved) && codec.decode(saved.value).Some? then codec.decode(saved.value).value else current
  }

  /** Storing and reloading a list gives the same list. */
  lemma RehydrateSaved(codec: CartCodec, items: seq<CartItem>, current: seq<CartItem>)
    requires RoundTrips(codec, items)
    ensures Rehydrate(codec, Some(codec.encode(items)), current) == items
  {
  }

  /** An absent or unparsable entry leaves a fresh (empty) cart empty. */
  lemma RehydrateFailsOpen(codec: CartCodec, saved: Option<string>)
    requires saved.None? || codec.decode(saved.value).None?
    ensures Rehydrate(codec, saved, []) == []
  {
  }

  // ---------------------------------------------------------------------------
  // The store

  class CartStore {
    var items: seq<CartItem>
    var initialized: bool
    const storage: Browser.LocalStorage
    const codec: CartCodec

    /** Once initialised, the stored `cart` entry is the serialised list. */
    ghost predicate Synced()
      reads this, storage
    {
      initialized ==> "cart" in storage.entries && storage.entries["cart"] == codec.encode(items)
    }

    /** Mounting `CartProvider`: empty list, not yet initialised, nothing
        written. */
    constructor (storage: Browser.LocalStorage, codec: CartCodec)
      ensures this.storage == storage && this.codec == codec
      ensures items == [] && !initialized && Synced()
    {
      this.storage := storage;
      this.codec := codec;
      items := [];
      initialized := false;
    }

    /** The save effect: after initialisation, every change of `items` writes
        the serialised list under `cart`; before it, nothing is written. */
    method Persist()
      modifies storage
      ensures initialized ==> storage.entries == old(storage.entries)["cart" := codec.encode(items)]
      ensures !initialized ==> storage.entries == old(storage.entries)
      ensures Synced()
    {
      if initialized {
        storage.SetItem("cart", codec.encode(items));
      }
    }

    /** The load effect, then the save effect it triggers: the list becomes the
        stored one when that is present and parses, the store is initialised,
        and the list is written back. */
    method Load()
      modifies this, storage
      ensures items == Rehydrate(codec, old(storage.GetItem("cart")), old(items))
      ensures initialized
      ensures storage.entries == old(storage.entries)["cart" := codec.encode(items)]
      ensures Synced()
    {
      var saved := storage.GetItem("cart");
      if Truthy(saved) {
        var parsed := codec.decode(saved.value);
        if parsed.Some? {
          items := parsed.value;
        }
      }
      initialized := true;
      Persist();
    }

    method AddItem(product: Api.Product, v: int, size: string, quantity: int, price: real)
      modifies this, storage
      ensures items == AddLine(old(items), product, v, size, quantity, price)
      ensures initialized == old(initialized)
      ensures initialized ==> storage.entries == old(storage.entries)["cart" := codec.encode(items)]
      ensures !initialized ==> storage.entries == old(storage.entries)
      ensures old(UniqueVariants(items)) ==> UniqueVariants(items)
      ensures Synced()
    {
      var i := FindIndex(v);
      if i > -1 {
        items := items[i := items[i].(quantity := items[i].quantity + quantity)];
      } else {
        items := items + [CartItem(product, v, size, quantity, price)];
      }
      if UniqueVariants(old(items)) {
        AddPreservesUnique(old(items), product, v, size, quantity, price);
      }
      Persist();
    }

    /** `findIndex` as the linear search it is. */
    method FindIndex(v: int) returns (i: int)
      ensures i == IndexOf(items, v)
    {
      i := 0;
      while i < |items|
        invariant 0 <= i <= |items|
        invariant forall j :: 0 <= j < i ==> items[j].variantId != v
      {
        if items[i].variantId == v {
          return;
        }
        i := i + 1;
      }
      i := -1;
    }

    method RemoveItem(v: int)
      modifies this, storage
      ensures items == WithoutVariant(old(items), v)
      ensures initialized == old(initialized)
      ensures initialized ==> storage.entries == old(storage.entries)["cart" := codec.encode(items)]
      ensures !initialized ==> storage.entries == old(storage.entries)
      ensures old(UniqueVariants(items)) ==> UniqueVariants(items)
      ensures Synced()
    {
      if UniqueVariants(items) {
        RemovePreservesUnique(items, v);
      }
      items := WithoutVariant(items, v);
      Persist();
    }

    method UpdateQuantity(v: int, quantity: int)
      modifies this, storage
      ensures items == UpdateLines(old(items), v, quantity)
      ensures initialized == old(initialized)
      ensures initialized ==> storage.entries == old(storage.entries)["cart" := codec.encode(items)]
      ensures !initialized ==> storage.entries == old(storage.entries)
      ensures old(UniqueVariants(items)) ==> UniqueVariants(items)
      ensures Synced()
    {
      if quantity <= 0 {
        RemoveItem(v);
        return;
      }
      if UniqueVariants(items) {
        UpdatePreservesUnique(items, v, quantity);
      }
      items := WithQuantity(items, v, quantity);
      Persist();
    }

    method ClearCart()
      modifies this, storage
      ensures items == [] && Total(items) == 0.0 && ItemCount(items) == 0
      ensures initialized == old(initialized)
      ensures initialized ==> storage.entries == old(storage.entries)["cart" := codec.encode([])]
      ensures !initialized ==> storage.entries == old(storage.entries)
      ensures Synced()
    {
      items := [];
      Persist();
    }
  }

  /** What the save effect leaves in storage reloads as the same lines: for
      an initialized store in sync with its storage, the load effect of a
      freshly mounted provider reading the same storage gets its lines back. */
  lemma SyncedReloads(store: CartStore)
    requires store.initialized && store.Synced() && RoundTrips(store.codec, store.items)
    ensures Rehydrate(store.codec, store.storage.GetItem("cart"), []) == store.items
  {
    RehydrateSaved(store.codec, store.items, []);
  }

  /** A page reload: a new provider over the same storage and codec, with its
      load effect run. It starts with the lines the old store saved. */
  method Reload(store: CartStore) returns (reloaded: CartStore)
    requires store.initialized && store.Synced() && RoundTrips(store.codec, store.items)
    modifies store.storage
    ensures reloaded.items == old(store.items) && reloaded.initialized && reloaded.Synced()
    ensures store.storage.entries == old(store.storage.entries)
  {
    SyncedReloads(store);
    reloaded := new CartStore(store.storage, store.codec);
    reloaded.Load();
  }
}