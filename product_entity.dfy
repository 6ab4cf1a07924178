/** The backend product entity and its price (backend/.../entity/Product.java).
    `getPrice` uses Java's `long` division, which truncates toward zero. */
module ProductEntity {
  import opened Wrappers
  import ProductModel

  datatype ProductImage = ProductImage(
    imageUrl: string, altText: Option<string>, displayOrder: int, mediaType: string)

  datatype Product = Product(
    id: int, name: string, netPrice: int, vatRate: int, currency: string,
    description: Option<string>, stock: Option<int>, images: seq<ProductImage>)

  /** Java's `/` on integers: the quotient truncated toward zero, so the
      remainder has the dividend's sign and is smaller than the divisor. */
  function JavaDiv(a: int, b: int): (q: int)
    requires b > 0
    ensures a >= 0 ==> 0 <= a - b * q < b
    ensures a < 0 ==> -b < a - b * q <= 0
  {
    if a >= 0 then a / b else -((-a) / b)
  }

  /** The VAT amount in pence: `(vatRate * netPrice + 50) / 100`. */
  function VatAmount(p: Product): (v: int)
    ensures p.netPrice >= 0 && p.vatRate >= 0 ==> v == (p.vatRate * p.netPrice + 50) / 100
  {
    JavaDiv(p.vatRate * p.netPrice + 50, 100)
  }

  /** getPrice: the net price plus the VAT amount, which is (vatRate·netPrice + 50)
      divided by 100 and truncated toward zero. */
  function GetPrice(p: Product): (price: int)
    ensures var x, v := p.vatRate * p.netPrice + 50, price - p.netPrice;
            x >= 0 ==> 100 * v <= x < 100 * v + 100
    ensures var x, v := p.vatRate * p.netPrice + 50, price - p.netPrice;
            x < 0 ==> 100 * v - 100 < x <= 100 * v
    ensures p.netPrice >= 0 && p.vatRate >= 0 ==>
              100 * (price - p.netPrice) - 50 <= p.vatRate * p.netPrice < 100 * (price - p.netPrice) + 50
  {
    p.netPrice + VatAmount(p)
  }

  /** For non-negative inputs the VAT amount is vatRate percent of the net price
      rounded half up to the nearest penny. */
  lemma VatRoundsHalfUp(p: Product)
    requires p.netPrice >= 0 && p.vatRate >= 0
    ensures 100 * VatAmount(p) - 50 <= p.vatRate * p.netPrice < 100 * VatAmount(p) + 50
  {
    assert p.vatRate * p.netPrice >= 0;
  }

  /** With a zero VAT rate the price is the net price. */
  lemma PriceWithoutVat(p: Product)
    requires p.vatRate == 0
    ensures GetPrice(p) == p.netPrice
  {
  }

  /** For non-negative inputs the price is never below the net price. */
  lemma PriceAtLeastNet(p: Product)
    requires p.netPrice >= 0 && p.vatRate >= 0
    ensures GetPrice(p) >= p.netPrice
  {
    assert p.vatRate * p.netPrice >= 0;
  }

  /** The frontend product record carrying the same price fields. */
  function AsFrontend(p: Product): ProductModel.Product {
    ProductModel.Product(p.id, p.name, p.netPrice, p.vatRate, p.currency,
                         p.description.GetOr(""), p.stock, None)
  }

  /** The product page shows the price the backend charges, for non-negative inputs. */
  lemma FrontendAgreesWithBackend(p: Product)
    requires p.netPrice >= 0 && p.vatRate >= 0
    ensures ProductModel.GetGrossPrice(AsFrontend(p)) == GetPrice(p)
  {
    assert p.vatRate * p.netPrice == p.netPrice * p.vatRate;
    assert p.vatRate * p.netPrice >= 0;
  }

  /** The agreement needs non-negative inputs: for a net price of -1 at 100% VAT
      Java truncates -0.5 to 0 while Math.floor gives -1. */
  lemma FrontendDisagreesOnNegativeNet(p: Product)
    requires p.netPrice == -1 && p.vatRate == 100
    ensures GetPrice(p) == -1
    ensures ProductModel.GetGrossPrice(AsFrontend(p)) == -2
  {
  }
}
