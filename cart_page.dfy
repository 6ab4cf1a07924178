/** The cart page (frontend/src/pages/CartPage.tsx): the selection of cart lines
    to check out, the totals shown for it, the quantity input and the checkout
    guard. The page's `selectedItems` state is a field that the handlers
    replace; the cart lines and the shipping cost come from the cart and config
    contexts. */
module CartPage {
  import opened Wrappers
  import CartItemModel

  type CartItem = CartItemModel.CartItem

  /** The lines whose id is selected, in cart order. */
  function SelectedLines(items: seq<CartItem>, selected: set<int>): (r: seq<CartItem>)
    ensures |r| <= |items|
    ensures forall x :: x in r <==> x in items && x.id in selected
  {
    if items == [] then []
    else
      var last := items[|items| - 1];
      SelectedLines(items[..|items| - 1], selected) + (if last.id in selected then [last] else [])
  }

  /** Selection works line by line: the lines selected from two parts of a cart
      are those of the first part followed by those of the second, so the cart's
      order and multiplicity are kept. */
  lemma {:induction false} SelectedLinesAppend(a: seq<CartItem>, b: seq<CartItem>, selected: set<int>)
    ensures SelectedLines(a + b, selected) == SelectedLines(a, selected) + SelectedLines(b, selected)
  {
    if b == [] {
      assert a + b == a;
    } else {
      var c, init, last := a + b, b[..|b| - 1], b[|b| - 1];
      var tail := if last.id in selected then [last] else [];
      assert c[..|c| - 1] == a + init && c[|c| - 1] == last;
      assert SelectedLines(c, selected) == SelectedLines(a + init, selected) + tail;
      SelectedLinesAppend(a, init, selected);
      assert SelectedLines(b, selected) == SelectedLines(init, selected) + tail;
    }
  }

  /** A single line is selected exactly when its id is. */
  lemma SelectedSingleLine(x: CartItem, selected: set<int>)
    ensures SelectedLines([x], selected) == (if x.id in selected then [x] else [])
  {
    assert [x][..0] == [];
  }

  lemma NothingSelected(items: seq<CartItem>, selected: set<int>)
    ensures selected == {} ==> SelectedLines(items, selected) == []
  {
    if selected == {} && SelectedLines(items, selected) != [] {
      assert SelectedLines(items, selected)[0] in SelectedLines(items, selected);
    }
  }

  /** The sum of the lines' gross prices (the `reduce` over getGrossPrice). */
  function SumGross(items: seq<CartItem>): int {
    if items == [] then 0 else SumGross(items[..|items| - 1]) + CartItemModel.GetGrossPrice(items[|items| - 1])
  }

  /** The sum of the lines' quantities. */
  function SumQuantity(items: seq<CartItem>): int {
    if items == [] then 0 else SumQuantity(items[..|items| - 1]) + items[|items| - 1].quantity
  }

  /** The set of ids in the cart. */
  function CartIds(items: seq<CartItem>): (ids: set<int>)
    ensures forall id :: id in ids <==> exists i :: 0 <= i < |items| && items[i].id == id
  {
    set i | 0 <= i < |items| :: items[i].id
  }

  /** With every id selected, every line is selected. */
  lemma {:induction false} AllSelected(items: seq<CartItem>, selected: set<int>)
    requires forall i :: 0 <= i < |items| ==> items[i].id in selected
    ensures SelectedLines(items, selected) == items
  {
    if items != [] {
      AllSelected(items[..|items| - 1], selected);
      assert items == items[..|items| - 1] + [items[|items| - 1]];
    }
  }

  /** A line priced from non-negative figures is never negative. */
  lemma LineIsNonNegative(item: CartItem)
    requires item.netPrice >= 0 && item.quantity >= 0 && item.vatRate >= 0
    ensures CartItemModel.GetGrossPrice(item) >= 0
  {
    var n := item.netPrice * item.quantity;
    assert n >= 0;
    assert n * item.vatRate >= 0;
  }

  /** A cart of non-negative lines has a non-negative sum. */
  lemma {:induction false} SumGrossIsNonNegative(items: seq<CartItem>)
    requires forall i :: 0 <= i < |items| ==>
               items[i].netPrice >= 0 && items[i].quantity >= 0 && items[i].vatRate >= 0
    ensures SumGross(items) >= 0
  {
    if items != [] {
      SumGrossIsNonNegative(items[..|items| - 1]);
      LineIsNonNegative(items[|items| - 1]);
    }
  }

  /** The clamp of the quantity input. `parsed` is parseInt's result (`None` for
      NaN). A value below 1 becomes 1; a value above a truthy stock becomes the
      stock. A stock of 0 is falsy in JavaScript and clamps nothing; a negative
      stock is truthy and below every clamped value, so it wins. */
  function ClampQuantity(parsed: Option<int>, stock: Option<int>): (q: int)
    ensures (stock.None? || stock.value == 0) ==> q == (if parsed.None? || parsed.value < 1 then 1 else parsed.value)
    ensures stock.Some? && stock.value != 0 ==> q <= stock.value
    ensures stock.Some? && stock.value >= 1 ==> 1 <= q
    ensures parsed.Some? && parsed.value >= 1 && (stock.None? || stock.value == 0 || parsed.value <= stock.value)
            ==> q == parsed.value
    ensures stock.Some? && stock.value != 0 && parsed.Some? && parsed.value > stock.value ==> q == stock.value
    ensures (parsed.None? || parsed.value < 1) && (stock.None? || stock.value == 0 || stock.value >= 1) ==> q == 1
    ensures stock.Some? && stock.value < 0 ==> q == stock.value
  {
    var v := if parsed.None? || parsed.value < 1 then 1 else parsed.value;
    if stock.Some? && stock.value != 0 && v > stock.value then stock.value else v
  }

  /** With zero stock the input is not held back: any positive entry goes through. */
  lemma ZeroStockDoesNotClamp(v: int)
    requires v >= 1
    ensures ClampQuantity(Some(v), Some(0)) == v
  {
  }

  /** The "−" button is disabled at quantity 1 or below. */
  predicate DecrementDisabled(item: CartItem) {
    item.quantity <= 1
  }

  /** The "+" button is disabled when a stock is known and reached. */
  predicate IncrementDisabled(item: CartItem) {
    item.stock.Some? && item.quantity >= item.stock.value
  }

  /** From a quantity within [1, stock], the enabled buttons keep it there. */
  lemma StepButtonsStayInStock(item: CartItem)
    requires item.stock.Some? && 1 <= item.quantity <= item.stock.value
    ensures !DecrementDisabled(item) ==> 1 <= item.quantity - 1 <= item.stock.value
    ensures !IncrementDisabled(item) ==> 1 <= item.quantity + 1 <= item.stock.value
  {
  }

  /** What the checkout button does: refuse with a message, or hand the selected
      lines to `checkout`. */
  datatype CheckoutOutcome = ShowError(message: string) | Checkout(lines: seq<CartItem>)

  class CartPage {
    var cartItems: seq<CartItem>
    var selectedItems: set<int>
    const shippingCost: int

    constructor (cartItems: seq<CartItem>, shippingCost: int)
      ensures this.cartItems == cartItems && this.shippingCost == shippingCost
      ensures selectedItems == {}
    {
      this.cartItems := cartItems;
      this.shippingCost := shippingCost;
      selectedItems := {};
    }

    /** getSelectedItems. */
    function GetSelectedItems(): seq<CartItem>
      reads this
    {
      SelectedLines(cartItems, selectedItems)
    }

    /** calculateSubtotal: the gross of the selected lines. */
    function CalculateSubtotal(): (subtotal: int)
      reads this
      ensures subtotal == SumGross(GetSelectedItems())
      ensures selectedItems == {} ==> subtotal == 0
    {
      NothingSelected(cartItems, selectedItems);
      SumGross(SelectedLines(cartItems, selectedItems))
    }

    /** calculateTotal: shipping is added as soon as anything is selected. */
    function CalculateTotal(): (total: int)
      reads this
      ensures selectedItems != {} ==> total == CalculateSubtotal() + shippingCost
      ensures selectedItems == {} ==> total == 0
    {
      CalculateSubtotal() + (if |selectedItems| > 0 then shippingCost else 0)
    }

    /** getSelectedItemCount: the number of units selected. */
    function GetSelectedItemCount(): (count: int)
      reads this
      ensures count == SumQuantity(GetSelectedItems())
      ensures selectedItems == {} ==> count == 0
    {
      NothingSelected(cartItems, selectedItems);
      SumQuantity(SelectedLines(cartItems, selectedItems))
    }

    /** handleSelectItem: only the membership of `itemId` changes, to `selected`. */
    method HandleSelectItem(itemId: int, selected: bool)
      modifies this`selectedItems
      ensures itemId in selectedItems <==> selected
      ensures forall id :: id != itemId ==> (id in selectedItems <==> id in old(selectedItems))
    {
      if selected {
        selectedItems := selectedItems + {itemId};
      } else {
        selectedItems := selectedItems - {itemId};
      }
    }

    /** handleSelectAll: every id in the cart, or none. */
    method HandleSelectAll(selected: bool)
      modifies this`selectedItems
      ensures selected ==> selectedItems == CartIds(cartItems)
      ensures !selected ==> selectedItems == {}
    {
      if selected {
        selectedItems := set i | 0 <= i < |cartItems| :: cartItems[i].id;
      } else {
        selectedItems := {};
      }
    }

    /** handleCheckout: with no selected line an error toast and no checkout call. */
    method HandleCheckout() returns (outcome: CheckoutOutcome)
      ensures GetSelectedItems() == [] ==> outcome == ShowError("Please select items to checkout")
      ensures GetSelectedItems() != [] ==> outcome == Checkout(GetSelectedItems())
    {
      var lines := SelectedLines(cartItems, selectedItems);
      if |lines| == 0 {
        return ShowError("Please select items to checkout");
      }
      return Checkout(lines);
    }
  }

  /** After select-all the subtotal covers the whole cart, and the lines sent to
      checkout are exactly the cart's lines. */
  lemma SelectAllCoversCart(page: CartPage)
    requires page.selectedItems == CartIds(page.cartItems)
    ensures page.GetSelectedItems() == page.cartItems
    ensures page.CalculateSubtotal() == SumGross(page.cartItems)
    ensures page.GetSelectedItemCount() == SumQuantity(page.cartItems)
  {
    AllSelected(page.cartItems, page.selectedItems);
  }

  /** Selected ids are not pruned when a line leaves the cart, so a stale
      selection of a line no longer present still adds the shipping cost to a
      zero subtotal. */
  lemma StaleSelectionStillAddsShipping(page: CartPage)
    requires page.cartItems == [] && page.selectedItems != {}
    ensures page.CalculateSubtotal() == 0
    ensures page.CalculateTotal() == page.shippingCost
  {
  }
}
