/** The store views of the backend (gearstore_backend/store/views.py): the
    permission rule of the catalogue view sets, the product and variant
    querysets, the cart-item serializer, and the guest and authenticated
    checkout views. The ORM is replaced by sequences of records; a request's
    parsed body and query parameters are parameters. */
module StoreViews {
  import opened Base

  // ---------------------------------------------------------------------------
  // Permissions

  /** The view-set actions a router dispatches. */
  datatype Action = List | Retrieve | Create | Update | PartialUpdate | Destroy

  /** `get_permissions` of the category, product and variant view sets:
      `AllowAny` for list and retrieve, `IsAuthenticated` otherwise. */
  predicate Permitted(action: Action, authenticated: bool) {
    action in {List, Retrieve} || authenticated
  }

  /** Anonymous callers may list and retrieve and do nothing else; an
      authenticated caller may do everything. */
  lemma PermissionRule(action: Action, authenticated: bool)
    ensures !authenticated ==> (Permitted(action, false) <==> action == List || action == Retrieve)
    ensures Permitted(action, true)
  {
  }

  // ---------------------------------------------------------------------------
  // Records

  /** A product variant as the checkout views reach it: its own fields plus
      the name and base price of `variant.product`. */
  datatype Variant = Variant(id: int, productId: int, productName: string, size: string, stock: int,
                             priceOverride: Option<real>, basePrice: real)

  datatype StoreProduct = StoreProduct(id: int, name: string, team: string, basePrice: real, variants: seq<Variant>)

  /** `variant.price_override if variant.price_override else
      variant.product.base_price`: a missing or zero override (a falsy
      Decimal) falls back to the base price. */
  function UnitPrice(v: Variant): real {
    if v.priceOverride.Some? && v.priceOverride.value != 0.0 then v.priceOverride.value else v.basePrice
  }

  // ---------------------------------------------------------------------------
  // Querysets: `.filter(...)` keeps the rows that match, in order.

  function Where<T(!new)>(xs: seq<T>, keep: T -> bool): (r: seq<T>)
    ensures forall x :: x in r <==> x in xs && keep(x)
    ensures |r| <= |xs|
  {
    if xs == [] then [] else (if keep(xs[0]) then [xs[0]] else []) + Where(xs[1..], keep)
  }

  /** Filtering twice is filtering once by both conditions. */
  lemma {:induction false} WhereWhere<T(!new)>(xs: seq<T>, f: T -> bool, g: T -> bool, both: T -> bool)
    requires forall x :: both(x) == (f(x) && g(x))
    ensures Where(Where(xs, f), g) == Where(xs, both)
  {
    if xs != [] {
      var t := xs[1..];
      WhereWhere(t, f, g, both);
      if f(xs[0]) {
        var w := Where(xs, f);
        assert w == [xs[0]] + Where(t, f);
        assert w[0] == xs[0] && w[1..] == Where(t, f);
        assert Where(w, g) == (if g(xs[0]) then [xs[0]] else []) + Where(Where(t, f), g);
      } else {
        assert Where(xs, f) == Where(t, f);
      }
    }
  }

  lemma {:induction false} WhereSame<T(!new)>(xs: seq<T>, f: T -> bool, g: T -> bool)
    requires forall x :: f(x) == g(x)
    ensures Where(xs, f) == Where(xs, g)
  {
    if xs != [] {
      WhereSame(xs[1..], f, g);
    }
  }

  lemma {:induction false} WhereAll<T(!new)>(xs: seq<T>, all: T -> bool)
    requires forall x :: all(x)
    ensures Where(xs, all) == xs
  {
    if xs != [] {
      WhereAll(xs[1..], all);
      assert xs == [xs[0]] + xs[1..];
    }
  }

  /** One optional refinement step: when the filter `f` is applied, the rows
      kept so far by `before` and then by `f` are the rows `after` keeps;
      when it is not, `after` keeps what `before` kept. */
  lemma Refine<T(!new)>(xs: seq<T>, before: T -> bool, f: T -> bool, after: T -> bool, applied: bool)
    requires forall x :: after(x) == (before(x) && (applied ==> f(x)))
    ensures Where(xs, after) == if applied then Where(Where(xs, before), f) else Where(xs, before)
  {
    if applied {
      WhereWhere(xs, before, f, after);
    } else {
      WhereSame(xs, before, after);
    }
  }

  /** Filtering never duplicates a row (the `.distinct()` of the size
      filter): a list without repeats stays without repeats. */
  lemma {:induction false} WhereDistinct<T(!new)>(xs: seq<T>, keep: T -> bool)
    requires forall i, j :: 0 <= i < j < |xs| ==> xs[i] != xs[j]
    ensures forall i, j :: 0 <= i < j < |Where(xs, keep)| ==> Where(xs, keep)[i] != Where(xs, keep)[j]
  {
    if xs != [] {
      var tail := xs[1..];
      assert forall i, j :: 0 <= i < j < |tail| ==> tail[i] == xs[i + 1] && tail[j] == xs[j + 1];
      WhereDistinct(tail, keep);
      assert xs[0] !in tail;
    }
  }

  /** A product offers a size when one of its variants has that size and is
      in stock. */
  predicate OffersSize(p: StoreProduct, size: string) {
    exists v :: v in p.variants && v.size == size && v.stock > 0
  }

  /** The conditions `ProductViewSet.get_queryset` applies, each only when
      its query parameter is a non-empty string. `decimal` is the conversion
      the ORM applies to the parameter text, None for text that is not a
      decimal number. */
  predicate MinOk(p: StoreProduct, priceMin: Option<string>, decimal: string -> Option<real>) {
    Truthy(priceMin) ==> decimal(priceMin.value).Some? && p.basePrice >= decimal(priceMin.value).value
  }

  predicate MaxOk(p: StoreProduct, priceMax: Option<string>, decimal: string -> Option<real>) {
    Truthy(priceMax) ==> decimal(priceMax.value).Some? && p.basePrice <= decimal(priceMax.value).value
  }

  predicate SizeOk(p: StoreProduct, sizeAvailable: Option<string>) {
    Truthy(sizeAvailable) ==> OffersSize(p, sizeAvailable.value)
  }

  predicate Matches(p: StoreProduct, priceMin: Option<string>, priceMax: Option<string>,
                    sizeAvailable: Option<string>, decimal: string -> Option<real>) {
    MinOk(p, priceMin, decimal) && MaxOk(p, priceMax, decimal) && SizeOk(p, sizeAvailable)
  }

  /** A price bound the ORM accepts: absent, empty, or decimal text. */
  predicate BoundParses(bound: Option<string>, decimal: string -> Option<real>) {
    Truthy(bound) ==> decimal(bound.value).Some?
  }

  /** `ProductViewSet.get_queryset`: the product list refined one filter at a
      time. A given price bound that is not a decimal number makes `filter`
      raise a validation error, which nothing handles (None: the list
      request fails with a 500). Otherwise the result is the products that
      match every given condition, in their original order. */
  method ProductQueryset(products: seq<StoreProduct>, priceMin: Option<string>, priceMax: Option<string>,
                         sizeAvailable: Option<string>, decimal: string -> Option<real>)
    returns (qs: Option<seq<StoreProduct>>)
    ensures qs.None? <==> !BoundParses(priceMin, decimal) || !BoundParses(priceMax, decimal)
    ensures qs.Some? ==> qs.value == Where(products, p => Matches(p, priceMin, priceMax, sizeAvailable, decimal))
    ensures qs.Some? ==> forall p :: p in qs.value <==> p in products && Matches(p, priceMin, priceMax, sizeAvailable, decimal)
  {
    ghost var none: StoreProduct -> bool := p => true;
    ghost var upToMin: StoreProduct -> bool := p => MinOk(p, priceMin, decimal);
    ghost var upToMax: StoreProduct -> bool := p => MinOk(p, priceMin, decimal) && MaxOk(p, priceMax, decimal);
    ghost var all: StoreProduct -> bool := p => Matches(p, priceMin, priceMax, sizeAvailable, decimal);
    WhereAll(products, none);
    var rows := products;
    if Truthy(priceMin) {
      var low := decimal(priceMin.value);
      if low.None? {
        return None;
      }
      var f := (p: StoreProduct) => p.basePrice >= low.value;
      Refine(products, none, f, upToMin, true);
      rows := Where(rows, f);
    } else {
      Refine(products, none, none, upToMin, false);
    }
    assert rows == Where(products, upToMin);
    if Truthy(priceMax) {
      var high := decimal(priceMax.value);
      if high.None? {
        return None;
      }
      var f := (p: StoreProduct) => p.basePrice <= high.value;
      Refine(products, upToMin, f, upToMax, true);
      rows := Where(rows, f);
    } else {
      Refine(products, upToMin, none, upToMax, false);
    }
    assert rows == Where(products, upToMax);
    if Truthy(sizeAvailable) {
      var size := sizeAvailable.value;
      var f := (p: StoreProduct) => OffersSize(p, size);
      Refine(products, upToMax, f, all, true);
      rows := Where(rows, f);
    } else {
      Refine(products, upToMax, none, all, false);
    }
    WhereSame(products, all, p => Matches(p, priceMin, priceMax, sizeAvailable, decimal));
    qs := Some(rows);
  }

  /** `ProductVariantViewSet.get_queryset`: every variant, or only those of
      the product named in the URL when there is one. */
  function VariantQueryset(variants: seq<Variant>, productPk: Option<int>): (r: seq<Variant>)
    ensures productPk.None? ==> r == variants
    ensures productPk.Some? ==> forall v :: v in r <==> v in variants && v.productId == productPk.value
  {
    if productPk.Some? then Where(variants, (v: Variant) => v.productId == productPk.value) else variants
  }

  // ---------------------------------------------------------------------------
  // CartItemSerializer(many=True)

  /** One entry of `cart_items` as posted. */
  datatype RawItem = RawItem(variantId: int, quantity: int)

  /** A validated entry: the variant the id names and the quantity. */
  datatype CartLine = CartLine(variant: Variant, quantity: int)

  /** The serializer's complaints about one entry: the id names no variant,
      the quantity is below 1. */
  datatype ItemErrors = ItemErrors(unknownVariant: bool, quantityBelowOne: bool)

  datatype Validation = Valid(lines: seq<CartLine>) | Invalid(errors: seq<ItemErrors>)

  function ItemCheck(catalogue: map<int, Variant>, item: RawItem): ItemErrors {
    ItemErrors(item.variantId !in catalogue, item.quantity < 1)
  }

  predicate Acceptable(catalogue: map<int, Variant>, item: RawItem) {
    item.variantId in catalogue && item.quantity >= 1
  }

  /** `is_valid()` of the list serializer: valid when every entry names an
      existing variant with a quantity of at least 1 (an empty list is
      valid); the errors are then one entry per item, empty for good ones. */
  function ValidateItems(catalogue: map<int, Variant>, items: seq<RawItem>): (v: Validation)
    ensures v.Valid? <==> forall i :: 0 <= i < |items| ==> Acceptable(catalogue, items[i])
    ensures v.Valid? ==> |v.lines| == |items|
    ensures v.Valid? ==> forall i :: 0 <= i < |items| ==>
      v.lines[i].variant == catalogue[items[i].variantId] && v.lines[i].quantity == items[i].quantity >= 1
    ensures v.Invalid? ==> |v.errors| == |items|
    ensures v.Invalid? ==> forall i :: 0 <= i < |items| ==>
      (v.errors[i].unknownVariant <==> items[i].variantId !in catalogue) &&
      (v.errors[i].quantityBelowOne <==> items[i].quantity < 1)
  {
    if forall i :: 0 <= i < |items| ==> Acceptable(catalogue, items[i]) then
      Valid(seq(|items|, i requires 0 <= i < |items| && Acceptable(catalogue, items[i]) =>
        CartLine(catalogue[items[i].variantId], items[i].quantity)))
    else
      Invalid(seq(|items|, i requires 0 <= i < |items| => ItemCheck(catalogue, items[i])))
  }

  // ---------------------------------------------------------------------------
  // Stock and totals

  predicate Short(l: CartLine) {
    l.variant.stock < l.quantity
  }

  /** The first line whose variant has fewer units in stock than ordered. */
  function FirstShort(lines: seq<CartLine>): (r: Option<nat>)
    ensures r.Some? ==> r.value < |lines| && Short(lines[r.value])
    ensures r.Some? ==> forall j :: 0 <= j < r.value ==> !Short(lines[j])
    ensures r.None? <==> forall j :: 0 <= j < |lines| ==> !Short(lines[j])
  {
    if lines == [] then None
    else if Short(lines[0]) then Some(0)
    else match FirstShort(lines[1..]) {
      case None => None
      case Some(k) => Some(k + 1)
    }
  }

  /** The line a stock check loop stops at is the one `FirstShort` names. */
  lemma FirstShortIs(lines: seq<CartLine>, i: nat)
    requires i < |lines| && Short(lines[i]) && forall j :: 0 <= j < i ==> !Short(lines[j])
    ensures FirstShort(lines) == Some(i)
  {
  }

  /** The 400 body of a failed stock check. */
  function StockMessage(v: Variant): string {
    "Insufficient stock for " + v.productName + " - " + v.size + ". Available: " + IntToString(v.stock)
  }

  /** The authenticated order total: the sum of unit price times quantity. */
  function OrderTotal(lines: seq<CartLine>): real {
    if lines == [] then 0.0
    else OrderTotal(lines[..|lines| - 1]) + UnitPrice(lines[|lines| - 1].variant) * (lines[|lines| - 1].quantity as real)
  }

  lemma {:induction false} OrderTotalAppend(a: seq<CartLine>, b: seq<CartLine>)
    ensures OrderTotal(a + b) == OrderTotal(a) + OrderTotal(b)
    decreases |b|
  {
    if b != [] {
      var init := b[..|b| - 1];
      assert (a + b)[..|a + b| - 1] == a + init;
      assert (a + b)[|a + b| - 1] == b[|b| - 1];
      OrderTotalAppend(a, init);
    } else {
      assert a + b == a;
    }
  }

  /** With no negative prices and positive quantities, the total is not
      negative and is at least the price of any one line. */
  lemma {:induction false} OrderTotalBounds(lines: seq<CartLine>)
    requires forall l :: l in lines ==> UnitPrice(l.variant) >= 0.0 && l.quantity >= 1
    ensures OrderTotal(lines) >= 0.0
    ensures forall l :: l in lines ==> OrderTotal(lines) >= UnitPrice(l.variant) * (l.quantity as real)
  {
    if lines != [] {
      var init := lines[..|lines| - 1];
      assert forall l :: l in init ==> l in lines;
      OrderTotalBounds(init);
      assert lines == init + [lines[|lines| - 1]];
    }
  }

  /** `int(total // 10)`: one point per whole ten, rounded toward zero. */
  function Points(total: real): int {
    Trunc(total / 10.0)
  }

  /** A non-negative total earns the number of whole tens it holds; ten
      times a whole number earns exactly that number. */
  lemma PointsRule(total: real, n: int)
    ensures total >= 0.0 ==> Points(total) >= 0 && 10.0 * (Points(total) as real) <= total < 10.0 * (Points(total) as real) + 10.0
    ensures Points(10.0 * (n as real)) == n
  {
    assert (10.0 * (n as real)) / 10.0 == n as real;
    TruncOfWhole(n);
  }

  // ---------------------------------------------------------------------------
  // Checkout views

  datatype CheckoutReply =
    | Rejected(errors: seq<ItemErrors>)
    | OutOfStock(error: string)
    | GuestOrder(orderId: string)
    | AuthOrder(orderId: string, total: real, pointsAwarded: int)
    | NotAuthenticated
  {
    function Code(): int {
      if Rejected? || OutOfStock? then 400 else if NotAuthenticated? then 401 else 201
    }
  }

  /** `GuestCheckoutView.post`. `uuid` is the text of the fresh `uuid4()`.
      Invalid items are answered with the serializer errors; otherwise the
      first under-stocked line is reported; otherwise a guest order id is
      issued. */
  method GuestCheckout(catalogue: map<int, Variant>, cartItems: seq<RawItem>, uuid: string)
    returns (reply: CheckoutReply)
    ensures ValidateItems(catalogue, cartItems).Invalid? ==> reply == Rejected(ValidateItems(catalogue, cartItems).errors)
    ensures ValidateItems(catalogue, cartItems).Valid? ==>
      var lines := ValidateItems(catalogue, cartItems).lines;
      reply == if FirstShort(lines).Some? then OutOfStock(StockMessage(lines[FirstShort(lines).value].variant))
               else GuestOrder("guest-" + uuid)
    ensures reply.Code() == 201 <==>
      forall i :: 0 <= i < |cartItems| ==> Acceptable(catalogue, cartItems[i]) && catalogue[cartItems[i].variantId].stock >= cartItems[i].quantity
  {
    var validation := ValidateItems(catalogue, cartItems);
    if validation.Invalid? {
      return Rejected(validation.errors);
    }
    var lines := validation.lines;
    var i := 0;
    while i < |lines|
      invariant 0 <= i <= |lines|
      invariant forall j :: 0 <= j < i ==> !Short(lines[j])
    {
      if lines[i].variant.stock < lines[i].quantity {
        FirstShortIs(lines, i);
        return OutOfStock(StockMessage(lines[i].variant));
      }
      i := i + 1;
    }
    return GuestOrder("guest-" + uuid);
  }

  /** `AuthenticatedCheckoutView`: the view's `IsAuthenticated` permission
      turns an anonymous caller away before `post` runs; `post` makes the
      same checks as the guest view, with the total accumulated over the
      lines checked so far; a stock failure returns before any total or
      points. */
  method AuthenticatedCheckout(authenticated: bool, catalogue: map<int, Variant>, cartItems: seq<RawItem>, uuid: string)
    returns (reply: CheckoutReply)
    ensures !authenticated <==> reply == NotAuthenticated
    ensures authenticated && ValidateItems(catalogue, cartItems).Invalid? ==> reply == Rejected(ValidateItems(catalogue, cartItems).errors)
    ensures authenticated && ValidateItems(catalogue, cartItems).Valid? ==>
      var lines := ValidateItems(catalogue, cartItems).lines;
      reply == if FirstShort(lines).Some? then OutOfStock(StockMessage(lines[FirstShort(lines).value].variant))
               else AuthOrder("auth-" + uuid, OrderTotal(lines), Points(OrderTotal(lines)))
    ensures reply.AuthOrder? ==> reply.Code() == 201 && reply.pointsAwarded == Points(reply.total)
  {
    if !authenticated {
      return NotAuthenticated;
    }
    var validation := ValidateItems(catalogue, cartItems);
    if validation.Invalid? {
      return Rejected(validation.errors);
    }
    var lines := validation.lines;
    var total := 0.0;
    var i := 0;
    while i < |lines|
      invariant 0 <= i <= |lines|
      invariant forall j :: 0 <= j < i ==> !Short(lines[j])
      invariant total == OrderTotal(lines[..i])
    {
      var line := lines[i];
      if line.variant.stock < line.quantity {
        FirstShortIs(lines, i);
        return OutOfStock(StockMessage(line.variant));
      }
      var price := if line.variant.priceOverride.Some? && line.variant.priceOverride.value != 0.0
                   then line.variant.priceOverride.value else line.variant.basePrice;
      total := total + price * (line.quantity as real);
      assert lines[..i + 1][..i] == lines[..i];
      i := i + 1;
    }
    assert lines[..i] == lines;
    var points := Points(total);
    return AuthOrder("auth-" + uuid, total, points);
  }
}
