/** The frontend cart line and its gross price (frontend/src/models/CartItem.tsx):
    VAT is applied once to the whole line `net * quantity`, not per unit. */
module CartItemModel {
  import opened Wrappers
  import ProductModel

  datatype CartItem = CartItem(
    id: int, name: string, netPrice: int, vatRate: int, currency: string,
    description: string, stock: Option<int>, quantity: int,
    images: Option<seq<ProductModel.ProductImage>>)

  /** getGrossPrice of a line: the gross of the line's net total, rounded once. */
  function GetGrossPrice(item: CartItem): (g: int)
    ensures g == item.netPrice * item.quantity + (item.netPrice * item.quantity * item.vatRate + 50) / 100
  {
    ProductModel.FloorGrossIsIntegerFormula(item.netPrice * item.quantity, item.vatRate);
    ProductModel.FloorGross(item.netPrice * item.quantity, item.vatRate)
  }

  /** The product record with the line's price fields. */
  function AsProduct(item: CartItem): ProductModel.Product {
    ProductModel.Product(item.id, item.name, item.netPrice, item.vatRate, item.currency,
                         item.description, item.stock, item.images)
  }

  /** An empty line costs nothing. */
  lemma EmptyLineIsFree(item: CartItem)
    requires item.quantity == 0
    ensures GetGrossPrice(item) == 0
  {
  }

  /** A line of one unit costs what the product page shows for that product. */
  lemma SingleUnitMatchesProduct(item: CartItem)
    requires item.quantity == 1
    ensures GetGrossPrice(item) == ProductModel.GetGrossPrice(AsProduct(item))
  {
    ProductModel.FloorGrossIsIntegerFormula(item.netPrice, item.vatRate);
  }

  /** Without VAT a line costs its net total; with non-negative VAT never less. */
  lemma LineAtLeastNet(item: CartItem)
    requires item.netPrice >= 0 && item.quantity >= 0 && item.vatRate >= 0
    ensures GetGrossPrice(item) >= item.netPrice * item.quantity
    ensures item.vatRate == 0 ==> GetGrossPrice(item) == item.netPrice * item.quantity
  {
    var n := item.netPrice * item.quantity;
    assert n >= 0;
    assert n * item.vatRate >= 0;
  }
}
