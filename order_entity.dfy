/** The backend order entity (backend/.../entity/Order.java): its lines, its
    shipping cost in pence (0 by default) and its total price. */
module OrderEntity {
  import opened Wrappers
  import opened OrderStatus
  import ProductEntity
  import CartItemModel

  /** One order line: a product and how many units of it. */
  datatype OrderProduct = OrderProduct(product: ProductEntity.Product, quantity: int)

  /** The sum of `product.getPrice() * quantity` over the lines. */
  function LinesTotal(lines: seq<OrderProduct>): (total: int)
    ensures NonNegativeLines(lines) ==> total >= 0
  {
    if lines == [] then 0
    else
      var last := lines[|lines| - 1];
      assert ProductEntity.GetPrice(last.product) >= 0 && last.quantity >= 0 ==>
               ProductEntity.GetPrice(last.product) * last.quantity >= 0;
      LinesTotal(lines[..|lines| - 1]) + ProductEntity.GetPrice(last.product) * last.quantity
  }

  /** Every line has a non-negative price and quantity. */
  predicate NonNegativeLines(lines: seq<OrderProduct>) {
    forall i :: 0 <= i < |lines| ==> ProductEntity.GetPrice(lines[i].product) >= 0 && lines[i].quantity >= 0
  }

  /** The lines total is additive over concatenation. */
  lemma {:induction false} LinesTotalAppend(a: seq<OrderProduct>, b: seq<OrderProduct>)
    ensures LinesTotal(a + b) == LinesTotal(a) + LinesTotal(b)
  {
    if b == [] {
      assert a + b == a;
    } else {
      var last := b[|b| - 1];
      assert (a + b)[..|a + b| - 1] == a + b[..|b| - 1];
      LinesTotalAppend(a, b[..|b| - 1]);
    }
  }

  /** A line with a non-negative price and quantity never lowers the total. */
  lemma AddingLineNeverLowersTotal(lines: seq<OrderProduct>, line: OrderProduct)
    requires ProductEntity.GetPrice(line.product) >= 0 && line.quantity >= 0
    ensures LinesTotal(lines + [line]) >= LinesTotal(lines)
  {
    LinesTotalAppend(lines, [line]);
    assert LinesTotal([line]) == ProductEntity.GetPrice(line.product) * line.quantity by {
      assert [line][..0] == [];
    }
  }

  class Order {
    var userId: Option<int>
    var orderProducts: seq<OrderProduct>
    var paymentStatus: Option<PaymentStatus>
    var trackingStatus: Option<TrackingStatus>
    var promotionCode: Option<string>
    var shippingCost: int

    /** A new order: no user, no lines, no statuses and a shipping cost of 0. */
    constructor ()
      ensures userId == None && orderProducts == [] && paymentStatus == None
      ensures trackingStatus == None && promotionCode == None && shippingCost == 0
      ensures GetTotalPrice() == 0
    {
      userId, orderProducts, paymentStatus := None, [], None;
      trackingStatus, promotionCode, shippingCost := None, None, 0;
    }

    /** getTotalPrice: the lines total plus the shipping cost. */
    function GetTotalPrice(): (total: int)
      reads this
      ensures NonNegativeLines(orderProducts) ==> total >= shippingCost
    {
      LinesTotal(orderProducts) + shippingCost
    }

    /** addOrderProduct: appends one line of this order for the product and
        quantity, which raises the total by exactly that line's price. */
    method AddOrderProduct(product: ProductEntity.Product, quantity: int)
      modifies this`orderProducts
      ensures orderProducts == old(orderProducts) + [OrderProduct(product, quantity)]
      ensures GetTotalPrice() == old(GetTotalPrice()) + ProductEntity.GetPrice(product) * quantity
    {
      var line := OrderProduct(product, quantity);
      LinesTotalAppend(orderProducts, [line]);
      assert [line][..0] == [];
      orderProducts := orderProducts + [line];
    }
  }

  /** a <= b scaled by a non-negative factor. */
  lemma MulMonotone(a: int, b: int, k: int)
    requires a <= b && k >= 0
    ensures a * k <= b * k
  {
    assert (b - a) * k >= 0;
  }

  /** The lines total of a cart line (frontend, rounded once per line) and of the
      same order line (backend, rounded per unit and multiplied) differ by at
      most half a penny per unit: 2 * |line - order| <= quantity. */
  lemma LineVersusOrderRounding(item: CartItemModel.CartItem, p: ProductEntity.Product)
    requires item.netPrice == p.netPrice >= 0 && item.vatRate == p.vatRate >= 0 && item.quantity >= 0
    ensures var d := CartItemModel.GetGrossPrice(item) - ProductEntity.GetPrice(p) * item.quantity;
            -item.quantity <= 2 * d <= item.quantity
  {
    var n, v, q := p.netPrice, p.vatRate, item.quantity;
    var a := ProductEntity.VatAmount(p);
    ProductEntity.VatRoundsHalfUp(p);
    var nq := n * q;
    assert nq >= 0;
    var x := nq * v + 50;
    var b := x / 100;
    assert 100 * b <= x < 100 * b + 100;
    assert CartItemModel.GetGrossPrice(item) == nq + b;
    assert ProductEntity.GetPrice(p) * q == nq + a * q;
    MulMonotone(100 * a - 50, v * n, q);
    MulMonotone(v * n, 100 * a + 49, q);
    assert (100 * a - 50) * q == 100 * (a * q) - 50 * q;
    assert (100 * a + 49) * q == 100 * (a * q) + 49 * q;
    assert v * n * q == nq * v;
  }

  /** The difference is real: three units at 1p net and 20% VAT cost 4p as a
      cart line but 3p in an order. */
  lemma LineAndOrderRoundingDiffer(item: CartItemModel.CartItem, p: ProductEntity.Product)
    requires item.netPrice == p.netPrice == 1 && item.vatRate == p.vatRate == 20 && item.quantity == 3
    ensures CartItemModel.GetGrossPrice(item) == 4
    ensures ProductEntity.GetPrice(p) * item.quantity == 3
  {
  }
}
