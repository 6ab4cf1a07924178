/** Creating and partially updating products (backend/.../service/ProductService.java).
    The product table is a map from id to product; a product's images are the
    rows of the image table that belong to it, in the order they were saved.
    Product names are unique (the table's unique constraint). */
module ProductService {
  import opened Wrappers
  import opened Failures
  import opened ProductEntity

  datatype MediaRequest = MediaRequest(imageUrl: string, altText: Option<string>, displayOrder: int, mediaType: string)

  datatype NewProductRequest = NewProductRequest(
    name: string, description: string, netPrice: int, stock: Option<int>,
    currency: string, vatRate: int, media: Option<seq<MediaRequest>>)

  /** Every field but the id may be null (`None`). */
  datatype UpdateProductRequest = UpdateProductRequest(
    id: int, name: Option<string>, description: Option<string>, netPrice: Option<int>,
    vatRate: Option<int>, currency: Option<string>, stock: Option<int>,
    media: Option<seq<MediaRequest>>)

  const DuplicateMessage: string := "Duplicate product name or other unique constraint violation"

  function ToImage(m: MediaRequest): ProductImage {
    ProductImage(m.imageUrl, m.altText, m.displayOrder, m.mediaType)
  }

  /** One image per media entry, in request order. */
  function ToImages(media: seq<MediaRequest>): (images: seq<ProductImage>)
    ensures |images| == |media|
    ensures forall i :: 0 <= i < |media| ==> images[i] == ToImage(media[i])
  {
    if media == [] then [] else ToImages(media[..|media| - 1]) + [ToImage(media[|media| - 1])]
  }

  /** A text field is copied when it is non-null and non-empty. */
  predicate AcceptsText(s: Option<string>) {
    s.Some? && s.value != ""
  }

  /** A number field is copied when it is non-null and not negative. */
  predicate AcceptsNumber(n: Option<int>) {
    n.Some? && n.value >= 0
  }

  /** The product after the field-by-field rules of updateProduct. */
  function ApplyUpdate(p: Product, req: UpdateProductRequest): (q: Product)
    ensures q.id == p.id
    ensures AcceptsText(req.name) ==> q.name == req.name.value
    ensures !AcceptsText(req.name) ==> q.name == p.name
    ensures AcceptsText(req.description) ==> q.description == req.description
    ensures !AcceptsText(req.description) ==> q.description == p.description
    ensures AcceptsText(req.currency) ==> q.currency == req.currency.value
    ensures !AcceptsText(req.currency) ==> q.currency == p.currency
    ensures AcceptsNumber(req.netPrice) ==> q.netPrice == req.netPrice.value
    ensures !AcceptsNumber(req.netPrice) ==> q.netPrice == p.netPrice
    ensures AcceptsNumber(req.stock) ==> q.stock == req.stock
    ensures !AcceptsNumber(req.stock) ==> q.stock == p.stock
    ensures AcceptsNumber(req.vatRate) ==> q.vatRate == req.vatRate.value
    ensures !AcceptsNumber(req.vatRate) ==> q.vatRate == p.vatRate
    ensures req.media.Some? ==> q.images == ToImages(req.media.value)
    ensures req.media.None? ==> q.images == p.images
  {
    Product(
      p.id,
      if AcceptsText(req.name) then req.name.value else p.name,
      if AcceptsNumber(req.netPrice) then req.netPrice.value else p.netPrice,
      if AcceptsNumber(req.vatRate) then req.vatRate.value else p.vatRate,
      if AcceptsText(req.currency) then req.currency.value else p.currency,
      if AcceptsText(req.description) then req.description else p.description,
      if AcceptsNumber(req.stock) then req.stock else p.stock,
      if req.media.Some? then ToImages(req.media.value) else p.images)
  }

  /** Applying the same request twice has the effect of applying it once. */
  lemma UpdateIsIdempotent(p: Product, req: UpdateProductRequest)
    ensures ApplyUpdate(ApplyUpdate(p, req), req) == ApplyUpdate(p, req)
  {
  }

  /** A request that carries nothing acceptable leaves the product as it is. */
  lemma IgnoredRequestChangesNothing(p: Product, req: UpdateProductRequest)
    requires !AcceptsText(req.name) && !AcceptsText(req.description) && !AcceptsText(req.currency)
    requires !AcceptsNumber(req.netPrice) && !AcceptsNumber(req.stock) && !AcceptsNumber(req.vatRate)
    requires req.media.None?
    ensures ApplyUpdate(p, req) == p
  {
  }

  /** An update that leaves both price fields alone leaves the price alone. */
  lemma PriceOnlyFollowsPriceFields(p: Product, req: UpdateProductRequest)
    requires !AcceptsNumber(req.netPrice) && !AcceptsNumber(req.vatRate)
    ensures GetPrice(ApplyUpdate(p, req)) == GetPrice(p)
  {
  }

  /** An empty media list clears the images; a null one keeps them. */
  lemma EmptyMediaClearsImages(p: Product, req: UpdateProductRequest)
    requires req.media == Some([])
    ensures ApplyUpdate(p, req).images == []
  {
  }

  class ProductService {
    var products: map<int, Product>
    var nextId: int

    /** Ids are keys and below the next identity value; names are unique. */
    predicate Valid()
      reads this
    {
      (forall id :: id in products ==> products[id].id == id && id < nextId)
      && (forall a, b :: a in products && b in products && a != b ==> products[a].name != products[b].name)
    }

    constructor ()
      ensures products == map[] && nextId == 1 && Valid()
    {
      products := map[];
      nextId := 1;
    }

    /** Whether some product other than `except` already has this name. */
    predicate NameTaken(name: string, except: Option<int>)
      reads this
    {
      exists id :: id in products && Some(id) != except && products[id].name == name
    }

    /** The images saved for a request's media, one per entry in order. */
    method BuildImages(media: seq<MediaRequest>) returns (images: seq<ProductImage>)
      ensures images == ToImages(media)
    {
      images := [];
      for i := 0 to |media|
        invariant images == ToImages(media[..i])
      {
        images := images + [ToImage(media[i])];
        assert media[..i + 1][..i] == media[..i];
      }
      assert media[..|media|] == media;
    }

    /** createProduct: a name already in use violates the unique constraint and
        raises 409 with nothing saved; otherwise the product is saved under the
        next id, with images only when media is non-null and non-empty. */
    method CreateProduct(req: NewProductRequest) returns (failure: Option<Failure>)
      requires Valid()
      modifies this
      ensures Valid()
      ensures old(NameTaken(req.name, None)) ==>
                failure == Some(ApiException(DuplicateMessage, Conflict))
                && products == old(products) && nextId == old(nextId)
      ensures !old(NameTaken(req.name, None)) ==>
                failure.None? && nextId == old(nextId) + 1
                && products == old(products)[old(nextId) := Product(
                     old(nextId), req.name, req.netPrice, req.vatRate, req.currency,
                     Some(req.description), req.stock,
                     if req.media.Some? && req.media.value != [] then ToImages(req.media.value) else [])]
    {
      if NameTaken(req.name, None) {
        return Some(ApiException(DuplicateMessage, Conflict));
      }
      var images: seq<ProductImage> := [];
      if req.media.Some? && |req.media.value| > 0 {
        images := BuildImages(req.media.value);
      }
      var id := nextId;
      products := products[id := Product(id, req.name, req.netPrice, req.vatRate, req.currency,
                                         Some(req.description), req.stock, images)];
      nextId := nextId + 1;
      return None;
    }

    /** updateProduct: 404 for an unknown id; otherwise the field rules of
        ApplyUpdate. Renaming onto another product's name violates the unique
        constraint when the transaction flushes: the exception is not an
        ApiException and the whole update is rolled back. */
    method UpdateProduct(req: UpdateProductRequest) returns (failure: Option<Failure>)
      requires Valid()
      modifies this`products
      ensures Valid()
      ensures req.id !in old(products) ==>
                failure == Some(ApiException("Product not found", NotFound)) && products == old(products)
      ensures req.id in old(products) && AcceptsText(req.name) && old(NameTaken(req.name.value, Some(req.id))) ==>
                failure.Some? && failure.value.RuntimeException? && products == old(products)
      ensures req.id in old(products) && !(AcceptsText(req.name) && old(NameTaken(req.name.value, Some(req.id)))) ==>
                failure.None? && products == old(products)[req.id := ApplyUpdate(old(products)[req.id], req)]
    {
      if req.id !in products {
        return Some(ApiException("Product not found", NotFound));
      }
      var p := products[req.id];
      if AcceptsText(req.name) && NameTaken(req.name.value, Some(req.id)) {
        return Some(RuntimeException(DuplicateMessage));
      }
      var images := p.images;
      if req.media.Some? {
        images := BuildImages(req.media.value);
      }
      var updated := ApplyUpdate(p, req).(images := images);
      assert updated == ApplyUpdate(p, req);
      products := products[req.id := updated];
      return None;
    }
  }
}
