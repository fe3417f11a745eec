/** The navigation cart icon (ag-gearstore/src/components/CartIcon.tsx): a
    badge with the number of items, capped at "9+". */
module CartIcon {
  import opened Base
  import Cart

  /** The badge text, or None when no badge is rendered. */
  function Badge(count: int): Option<string> {
    if count > 0 then Some(if count > 9 then "9+" else IntToString(count)) else None
  }

  /** The badge shows iff the count is positive; it reads "9+" iff the count
      is above 9, and otherwise it is the count's single digit. */
  lemma BadgeRules(count: int)
    ensures Badge(count).Some? <==> count > 0
    ensures Badge(count) == Some("9+") <==> count > 9
    ensures 0 < count <= 9 ==> Badge(count) == Some([DigitChar(count)])
  {
    if 0 < count <= 9 {
      SingleDigit(count);
      assert [DigitChar(count)] != "9+";
    }
  }

  /** The icon counts items, not lines: a cart of lines each holding at least
      one item shows a badge as soon as it has a line, and "9+" whenever it
      has ten lines or more. */
  lemma BadgeOfCart(items: seq<Cart.CartItem>)
    requires forall x :: x in items ==> x.quantity >= 1
    ensures Badge(Cart.ItemCount(items)).Some? <==> |items| > 0
    ensures |items| > 9 ==> Badge(Cart.ItemCount(items)) == Some("9+")
  {
    Cart.ItemCountAtLeastLines(items);
    BadgeRules(Cart.ItemCount(items));
  }
}
