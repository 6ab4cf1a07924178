/** Placing orders, changing their tracking status and paging through them
    (backend/.../service/OrderService.java). The order table maps an order id to
    its Order entity; the user, product and configuration tables are read-only. */
module OrderService {
  import opened Wrappers
  import opened Failures
  import opened OrderStatus
  import ProductEntity
  import OrderEntity

  /** One requested item: a product id and a quantity. */
  datatype CreateOrderItem = CreateOrderItem(productId: int, quantity: int)

  /** A validated page request: page index and page size. */
  datatype PageRequest = PageRequest(page: int, size: int)

  /** PageRequest.of: a negative index or a size below one is an
      IllegalArgumentException. */
  function PageRequestOf(page: int, size: int): (r: Result<PageRequest, Failure>)
    ensures r.Ok? <==> page >= 0 && size >= 1
    ensures r.Ok? ==> r.value == PageRequest(page, size)
  {
    if page < 0 then Err(RuntimeException("Page index must not be less than zero"))
    else if size < 1 then Err(RuntimeException("Page size must not be less than one"))
    else Ok(PageRequest(page, size))
  }

  /** The page size of a user's order list: at most 10. */
  function UserPageSize(size: int): (s: int)
    ensures s <= 10 && s <= size
    ensures s == size || s == 10
  {
    if size < 10 then size else 10
  }

  /** The page size of the admin order list: at most 50. */
  function AdminPageSize(size: int): (s: int)
    ensures s <= 50 && s <= size
    ensures s == size || s == 50
  {
    if size < 50 then size else 50
  }

  /** findAllByUserId's page request. */
  function UserOrdersPage(page: int, size: int): (r: Result<PageRequest, Failure>)
    ensures r.Ok? ==> r.value.size <= 10
    ensures 1 <= size <= 10 && page >= 0 ==> r == Ok(PageRequest(page, size))
    ensures size > 10 && page >= 0 ==> r == Ok(PageRequest(page, 10))
  {
    PageRequestOf(page, UserPageSize(size))
  }

  /** findAllOrdersForAdmin's page request. */
  function AdminOrdersPage(page: int, size: int): (r: Result<PageRequest, Failure>)
    ensures r.Ok? ==> r.value.size <= 50
    ensures 1 <= size <= 50 && page >= 0 ==> r == Ok(PageRequest(page, size))
    ensures size > 50 && page >= 0 ==> r == Ok(PageRequest(page, 50))
  {
    PageRequestOf(page, AdminPageSize(size))
  }

  /** The order lines for the requested items whose product exists, in request order. */
  function KnownLines(products: map<int, ProductEntity.Product>, items: seq<CreateOrderItem>)
    : (lines: seq<OrderEntity.OrderProduct>)
    ensures |lines| <= |items|
    ensures forall l :: l in lines ==> exists i :: 0 <= i < |items| && items[i].productId in products
                                        && l == OrderEntity.OrderProduct(products[items[i].productId], items[i].quantity)
  {
    if items == [] then []
    else
      var last := items[|items| - 1];
      KnownLines(products, items[..|items| - 1])
        + (if last.productId in products then [OrderEntity.OrderProduct(products[last.productId], last.quantity)] else [])
  }

  /** Requested items that all exist all become lines, one per item, in order. */
  lemma {:induction false} AllKnownLines(products: map<int, ProductEntity.Product>, items: seq<CreateOrderItem>)
    requires forall i :: 0 <= i < |items| ==> items[i].productId in products
    ensures |KnownLines(products, items)| == |items|
    ensures forall i :: 0 <= i < |items| ==>
              KnownLines(products, items)[i] == OrderEntity.OrderProduct(products[items[i].productId], items[i].quantity)
  {
    if items != [] {
      AllKnownLines(products, items[..|items| - 1]);
    }
  }

  /** Items naming no product contribute nothing. */
  lemma UnknownItemIsSkipped(products: map<int, ProductEntity.Product>, items: seq<CreateOrderItem>, item: CreateOrderItem)
    requires item.productId !in products
    ensures KnownLines(products, items + [item]) == KnownLines(products, items)
  {
    assert (items + [item])[..|items|] == items;
  }

  /** An item naming a product adds one line for it, with its quantity, after
      the lines of the earlier items. */
  lemma KnownItemIsAdded(products: map<int, ProductEntity.Product>, items: seq<CreateOrderItem>, item: CreateOrderItem)
    requires item.productId in products
    ensures KnownLines(products, items + [item])
            == KnownLines(products, items) + [OrderEntity.OrderProduct(products[item.productId], item.quantity)]
  {
    assert (items + [item])[..|items|] == items;
  }

  /** The shipping cost of a new order: the first configuration row's value when
      that row exists and the value is non-null, else the entity default 0. */
  function ShippingFromConfig(configs: seq<Option<int>>): (cost: int)
    ensures configs == [] || configs[0].None? ==> cost == 0
    ensures configs != [] && configs[0].Some? ==> cost == configs[0].value
  {
    if configs != [] && configs[0].Some? then configs[0].value else 0
  }

  class OrderService {
    var users: set<int>
    var products: map<int, ProductEntity.Product>
    /** The shipping cost column of the configuration rows, in table order. */
    var configs: seq<Option<int>>
    var orders: map<int, OrderEntity.Order>
    var nextId: int

    constructor (users: set<int>, products: map<int, ProductEntity.Product>, configs: seq<Option<int>>)
      ensures this.users == users && this.products == products && this.configs == configs
      ensures orders == map[] && nextId == 1
    {
      this.users := users;
      this.products := products;
      this.configs := configs;
      orders := map[];
      nextId := 1;
    }

    /** createOrder: 404 for an unknown user. Otherwise a new order under the
        next id, holding the lines of the items whose product exists, unpaid and
        not shipped, with the promotion code when one is given and the shipping
        cost from the configuration. */
    method CreateOrder(userId: int, items: seq<CreateOrderItem>, promotionCode: Option<string>)
      returns (r: Result<OrderEntity.Order, Failure>)
      modifies this`orders, this`nextId
      ensures userId !in users ==>
                r == Err(ApiException("User not found", NotFound)) && orders == old(orders) && nextId == old(nextId)
      ensures userId in users ==>
                r.Ok? && fresh(r.value) && nextId == old(nextId) + 1 && orders == old(orders)[old(nextId) := r.value]
      ensures r.Ok? ==>
                var o := r.value;
                o.userId == Some(userId) && o.orderProducts == KnownLines(products, items)
                && o.paymentStatus == Some(Unpaid) && o.trackingStatus == Some(NotShipped)
                && o.promotionCode == promotionCode && o.shippingCost == ShippingFromConfig(configs)
                && o.GetTotalPrice() == OrderEntity.LinesTotal(KnownLines(products, items)) + ShippingFromConfig(configs)
    {
      if userId !in users {
        return Err(ApiException("User not found", NotFound));
      }
      var order := new OrderEntity.Order();
      AddKnownLines(order, items);
      order.userId := Some(userId);
      order.paymentStatus := Some(Unpaid);
      order.trackingStatus := Some(NotShipped);
      if promotionCode.Some? {
        order.promotionCode := promotionCode;
      }
      if |configs| > 0 && configs[0].Some? {
        order.shippingCost := configs[0].value;
      }
      orders := orders[nextId := order];
      nextId := nextId + 1;
      return Ok(order);
    }

    /** The forEach over the request items: each item whose product exists is
        added to the order with its quantity. */
    method AddKnownLines(order: OrderEntity.Order, items: seq<CreateOrderItem>)
      requires order.orderProducts == []
      modifies order`orderProducts
      ensures order.orderProducts == KnownLines(products, items)
    {
      for i := 0 to |items|
        invariant order.orderProducts == KnownLines(products, items[..i])
      {
        var item := items[i];
        assert items[..i + 1][..i] == items[..i];
        if item.productId in products {
          order.AddOrderProduct(products[item.productId], item.quantity);
        }
      }
      assert items[..|items|] == items;
    }

    /** updateOrderStatus: 404 for an unknown order; otherwise the tracking
        status becomes the given value, whatever it was, and nothing else changes. */
    method UpdateOrderStatus(orderId: int, trackingStatus: Option<TrackingStatus>)
      returns (r: Result<OrderEntity.Order, Failure>)
      modifies if orderId in orders then {orders[orderId]} else {}
      ensures orderId !in orders ==> r == Err(ApiException("Order not found", NotFound))
      ensures orderId in orders ==> r == Ok(orders[orderId])
      ensures orderId in orders ==>
                var o := orders[orderId];
                o.trackingStatus == trackingStatus
                && o.userId == old(o.userId) && o.orderProducts == old(o.orderProducts)
                && o.paymentStatus == old(o.paymentStatus) && o.promotionCode == old(o.promotionCode)
                && o.shippingCost == old(o.shippingCost)
    {
      if orderId !in orders {
        return Err(ApiException("Order not found", NotFound));
      }
      var o := orders[orderId];
      o.trackingStatus := trackingStatus;
      return Ok(o);
    }
  }
}
