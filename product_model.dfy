/** The frontend product record and its gross price (frontend/src/models/Product.tsx).
    Prices are integers in pence and VAT rates integer percentages; the
    division by 100 is JavaScript's real division followed by Math.floor. */
module ProductModel {
  import opened Wrappers

  datatype MediaType = Image | Video

  datatype ProductImage = ProductImage(
    id: int, imageUrl: string, altText: Option<string>, displayOrder: int, mediaType: Option<MediaType>)

  datatype Product = Product(
    id: int, name: string, netPrice: int, vatRate: int, currency: string,
    description: string, stock: Option<int>, images: Option<seq<ProductImage>>)

  /** Math.floor(amount + (amount * vat + 50) / 100) with the division over the reals. */
  function FloorGross(amount: int, vat: int): (g: int)
    ensures g as real <= amount as real + (amount * vat + 50) as real / 100.0 < g as real + 1.0
  {
    (amount as real + (amount * vat + 50) as real / 100.0).Floor
  }

  /** getGrossPrice: the price including VAT, rounded half up to the penny. */
  function GetGrossPrice(p: Product): (g: int)
    ensures g == p.netPrice + (p.netPrice * p.vatRate + 50) / 100
  {
    FloorGrossIsIntegerFormula(p.netPrice, p.vatRate);
    FloorGross(p.netPrice, p.vatRate)
  }

  /** For integer inputs the floating formula is exactly integer floor division
      (Dafny's `/` floors for a positive divisor). */
  lemma FloorGrossIsIntegerFormula(amount: int, vat: int)
    ensures FloorGross(amount, vat) == amount + (amount * vat + 50) / 100
  {
    var y := amount * vat + 50;
    var q, r := y / 100, y % 100;
    assert y == 100 * q + r && 0 <= r < 100;
    assert y as real / 100.0 == q as real + r as real / 100.0;
    var x := amount as real + y as real / 100.0;
    assert (amount + q) as real <= x < (amount + q) as real + 1.0;
  }

  /** The VAT part of the gross price is vat percent of the amount rounded half
      up: its distance to the exact value is at most half a penny, ties upwards. */
  lemma GrossRoundsHalfUp(amount: int, vat: int)
    ensures var v := FloorGross(amount, vat) - amount;
            100 * v - 50 <= amount * vat < 100 * v + 50
  {
    FloorGrossIsIntegerFormula(amount, vat);
  }

  /** With no VAT the gross price is the net price. */
  lemma GrossWithoutVat(p: Product)
    requires p.vatRate == 0
    ensures GetGrossPrice(p) == p.netPrice
  {
    FloorGrossIsIntegerFormula(p.netPrice, 0);
  }

  /** For non-negative inputs VAT never lowers the price. */
  lemma GrossAtLeastNet(p: Product)
    requires p.netPrice >= 0 && p.vatRate >= 0
    ensures GetGrossPrice(p) >= p.netPrice
  {
    FloorGrossIsIntegerFormula(p.netPrice, p.vatRate);
    assert p.netPrice * p.vatRate >= 0;
  }

  /** For a non-negative VAT rate a larger net price never gives a smaller gross price. */
  lemma GrossMonotoneInNet(p: Product, q: Product)
    requires p.vatRate == q.vatRate >= 0 && p.netPrice <= q.netPrice
    ensures GetGrossPrice(p) <= GetGrossPrice(q)
  {
    FloorGrossIsIntegerFormula(p.netPrice, p.vatRate);
    FloorGrossIsIntegerFormula(q.netPrice, q.vatRate);
    assert p.netPrice * p.vatRate <= q.netPrice * q.vatRate by {
      assert (q.netPrice - p.netPrice) * p.vatRate >= 0;
    }
  }
}
