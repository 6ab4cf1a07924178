/** The cart table and its update rules (backend/.../service/cart/CartService.java).
    Each user has at most one cart; a cart is a map from product id to the
    quantity of its line. The user and product tables are read-only here. */
module CartService {
  import opened Wrappers
  import opened Failures

  type Lines = map<int, int>

  /** The quantity of a product's line, 0 when there is none. */
  function Quantity(lines: Lines, productId: int): int {
    if productId in lines then lines[productId] else 0
  }

  /** Every stored line holds at least one unit. */
  predicate LinesValid(lines: Lines) {
    forall p :: p in lines ==> lines[p] >= 1
  }

  /** A line whose new quantity is below 1 is deleted; otherwise it is set. */
  function SetLine(lines: Lines, productId: int, quantity: int): (r: Lines)
    ensures quantity < 1 ==> productId !in r
    ensures quantity >= 1 ==> productId in r && r[productId] == quantity
    ensures forall p :: p != productId ==> (p in r <==> p in lines) && (p in r ==> r[p] == lines[p])
    ensures LinesValid(lines) ==> LinesValid(r)
  {
    if quantity < 1 then lines - {productId} else lines[productId := quantity]
  }

  /** deltaProductQuantity on one cart: the line (0 when absent) plus `delta`. */
  function ApplyDelta(lines: Lines, productId: int, delta: int): Lines {
    SetLine(lines, productId, Quantity(lines, productId) + delta)
  }

  /** A delta that brings the line to `quantity` has the same effect as setting it. */
  lemma DeltaIsSetRelative(lines: Lines, productId: int, quantity: int)
    ensures ApplyDelta(lines, productId, quantity - Quantity(lines, productId)) == SetLine(lines, productId, quantity)
  {
  }

  /** Adding and then taking back the same units restores a line that stays
      positive throughout. */
  lemma DeltaUndo(lines: Lines, productId: int, delta: int)
    requires productId in lines && lines[productId] >= 1 && lines[productId] + delta >= 1
    ensures ApplyDelta(ApplyDelta(lines, productId, delta), productId, -delta) == lines
  {
    var once := ApplyDelta(lines, productId, delta);
    assert Quantity(once, productId) == lines[productId] + delta;
    var twice := ApplyDelta(once, productId, -delta);
    assert forall p :: p in twice <==> p in lines;
  }

  /** A delta of zero leaves a valid cart as it is. */
  lemma ZeroDeltaIsIdentity(lines: Lines, productId: int)
    requires LinesValid(lines)
    ensures ApplyDelta(lines, productId, 0) == lines
  {
    if productId !in lines {
      assert lines - {productId} == lines;
    }
  }

  /** Setting the same quantity twice is the same as setting it once. */
  lemma SetIsIdempotent(lines: Lines, productId: int, quantity: int)
    ensures SetLine(SetLine(lines, productId, quantity), productId, quantity) == SetLine(lines, productId, quantity)
  {
  }

  /** An id the bulk removal can act on: not null and naming a product. */
  predicate Removable(products: set<int>, id: Option<int>) {
    id.Some? && id.value in products
  }

  /** The index of the first id that is null or not a product; |ids| when all
      of them are removable. */
  function FirstBad(products: set<int>, ids: seq<Option<int>>): (k: nat)
    ensures k <= |ids|
    ensures forall j :: 0 <= j < k ==> Removable(products, ids[j])
    ensures k < |ids| ==> !Removable(products, ids[k])
  {
    if ids == [] || !Removable(products, ids[0]) then 0 else 1 + FirstBad(products, ids[1..])
  }

  /** The product ids named by a run of removable ids. */
  function IdValues(ids: seq<Option<int>>): set<int> {
    set j | 0 <= j < |ids| && ids[j].Some? :: ids[j].value
  }

  /** The lines left after deleting the lines of `ids`, stopping at the first id
      that is null (`None`) or not a product; the failure, if any, says why. */
  function RemoveEach(lines: Lines, products: set<int>, ids: seq<Option<int>>): (r: (Lines, Option<Failure>))
    ensures var k := FirstBad(products, ids);
            r.0 == lines - IdValues(ids[..k])
    ensures r.1.None? <==> forall i :: 0 <= i < |ids| ==> Removable(products, ids[i])
    ensures var k := FirstBad(products, ids);
            k < |ids| && ids[k].None? ==> r.1 == Some(RuntimeException("null id"))
    ensures var k := FirstBad(products, ids);
            k < |ids| && ids[k].Some? ==> r.1 == Some(ApiException("Product not found", NotFound))
  {
    if ids == [] then (lines, None)
    else match ids[0]
      case None => (lines, Some(RuntimeException("null id")))
      case Some(p) =>
        if p !in products then (lines, Some(ApiException("Product not found", NotFound)))
        else
          var r := RemoveEach(lines - {p}, products, ids[1..]);
          RemoveStep(lines, p, ids, FirstBad(products, ids[1..]));
          r
  }

  /** The set bookkeeping of one step of RemoveEach: deleting the first id and
      then the next k is deleting the first k + 1. */
  lemma RemoveStep(lines: Lines, p: int, ids: seq<Option<int>>, k: nat)
    requires |ids| >= 1 && ids[0] == Some(p) && k <= |ids| - 1
    ensures (lines - {p}) - IdValues(ids[1..][..k]) == lines - IdValues(ids[..k + 1])
  {
    var tail, all := ids[1..][..k], ids[..k + 1];
    assert forall j :: 0 <= j < |tail| ==> tail[j] == all[j + 1];
    assert IdValues(all) == {p} + IdValues(tail) by {
      forall x | x in IdValues(all)
        ensures x in {p} + IdValues(tail)
      {
        var j :| 0 <= j < |all| && all[j].Some? && all[j].value == x;
        if j > 0 {
          assert tail[j - 1] == all[j];
        }
      }
      forall x | x in IdValues(tail)
        ensures x in IdValues(all)
      {
        var j :| 0 <= j < |tail| && tail[j].Some? && tail[j].value == x;
        assert all[j + 1] == tail[j];
      }
      assert all[0] == Some(p);
    }
  }

  /** A list of removable ids succeeds and deletes exactly their lines. */
  lemma RemovableIdsSucceed(lines: Lines, products: set<int>, ids: seq<Option<int>>)
    requires forall i :: 0 <= i < |ids| ==> Removable(products, ids[i])
    ensures RemoveEach(lines, products, ids) == (lines - IdValues(ids), None)
  {
    var k := FirstBad(products, ids);
    assert k == |ids|;
    assert ids[..k] == ids;
  }

  /** A bad id stops the removal: the lines of the ids before it are deleted,
      every other line stays, and the error names the kind of bad id. */
  lemma BadIdStopsRemoval(lines: Lines, products: set<int>, ids: seq<Option<int>>, k: nat)
    requires k < |ids| && !Removable(products, ids[k])
    requires forall j :: 0 <= j < k ==> Removable(products, ids[j])
    ensures RemoveEach(lines, products, ids).0 == lines - IdValues(ids[..k])
    ensures RemoveEach(lines, products, ids).1
            == Some(if ids[k].None? then RuntimeException("null id") else ApiException("Product not found", NotFound))
  {
    assert FirstBad(products, ids) == k;
  }

  class CartService {
    var users: set<int>
    var products: set<int>
    var carts: map<int, Lines>

    /** Carts belong to known users and hold only positive lines of known products. */
    predicate Valid()
      reads this
    {
      forall u :: u in carts ==> u in users && LinesValid(carts[u]) && (forall p :: p in carts[u] ==> p in products)
    }

    constructor (users: set<int>, products: set<int>)
      ensures this.users == users && this.products == products && carts == map[]
      ensures Valid()
    {
      this.users := users;
      this.products := products;
      carts := map[];
    }

    /** The user's cart, or a new empty one. */
    function CartOf(userId: int): Lines
      reads this
    {
      if userId in carts then carts[userId] else map[]
    }

    /** getCartByUser: the existing cart, or a new empty cart saved for the user;
        an unknown user is a plain RuntimeException. */
    method GetCartByUser(userId: int) returns (r: Result<Lines, Failure>)
      requires Valid()
      modifies this`carts
      ensures Valid()
      ensures userId !in users ==> r == Err(RuntimeException("User not found")) && carts == old(carts)
      ensures userId in users ==> r == Ok(old(CartOf(userId))) && carts == old(carts)[userId := old(CartOf(userId))]
    {
      if userId !in users {
        return Err(RuntimeException("User not found"));
      }
      if userId !in carts {
        carts := carts[userId := map[]];
      }
      return Ok(carts[userId]);
    }

    /** deltaProductQuantity. The missing cart is created before the product is
        looked up, so it remains even when the product is unknown. */
    method DeltaProductQuantity(userId: int, productId: int, delta: int) returns (r: Result<Lines, Failure>)
      requires Valid()
      modifies this`carts
      ensures Valid()
      ensures userId !in users ==> r == Err(ApiException("User not found", NotFound)) && carts == old(carts)
      ensures userId in users && productId !in products ==>
                r == Err(ApiException("Product not found", NotFound)) && carts == old(carts)[userId := old(CartOf(userId))]
      ensures userId in users && productId in products ==>
                carts == old(carts)[userId := ApplyDelta(old(CartOf(userId)), productId, delta)]
                && r == Ok(carts[userId])
    {
      if userId !in users {
        return Err(ApiException("User not found", NotFound));
      }
      if userId !in carts {
        carts := carts[userId := map[]];
      }
      if productId !in products {
        return Err(ApiException("Product not found", NotFound));
      }
      var lines := carts[userId];
      var current := if productId in lines then lines[productId] else 0;
      if current + delta < 1 {
        lines := lines - {productId};
      } else {
        lines := lines[productId := current + delta];
      }
      carts := carts[userId := lines];
      return Ok(lines);
    }

    /** updateProductQuantity: a quantity below 1 deletes the line, any other
        becomes the line's quantity. */
    method UpdateProductQuantity(userId: int, productId: int, quantity: int) returns (r: Result<Lines, Failure>)
      requires Valid()
      modifies this`carts
      ensures Valid()
      ensures userId !in users ==> r == Err(ApiException("User not found", NotFound)) && carts == old(carts)
      ensures userId in users && productId !in products ==>
                r == Err(ApiException("Product not found", NotFound)) && carts == old(carts)[userId := old(CartOf(userId))]
      ensures userId in users && productId in products ==>
                carts == old(carts)[userId := SetLine(old(CartOf(userId)), productId, quantity)]
                && r == Ok(carts[userId])
    {
      if userId !in users {
        return Err(ApiException("User not found", NotFound));
      }
      if userId !in carts {
        carts := carts[userId := map[]];
      }
      if productId !in products {
        return Err(ApiException("Product not found", NotFound));
      }
      var lines := carts[userId];
      if quantity < 1 {
        lines := lines - {productId};
      } else {
        lines := lines[productId := quantity];
      }
      carts := carts[userId := lines];
      return Ok(lines);
    }

    /** removeProductFromCart: a missing user or cart is a RuntimeException, a
        missing product or line a 404; otherwise exactly that line goes. */
    method RemoveProductFromCart(userId: int, productId: int) returns (failure: Option<Failure>)
      requires Valid()
      modifies this`carts
      ensures Valid()
      ensures userId !in users ==> failure == Some(RuntimeException("User not found"))
      ensures userId in users && userId !in old(carts) ==> failure == Some(RuntimeException("Cart not found"))
      ensures userId in old(carts) && productId !in products ==> failure == Some(ApiException("Product not found", NotFound))
      ensures userId in old(carts) && productId in products && productId !in old(carts)[userId] ==>
                failure == Some(ApiException("CartProduct not found", NotFound))
      ensures failure.Some? ==> carts == old(carts)
      ensures failure.None? <==> userId in old(carts) && productId in old(carts)[userId]
      ensures failure.None? ==> carts == old(carts)[userId := old(carts)[userId] - {productId}]
    {
      if userId !in users {
        return Some(RuntimeException("User not found"));
      }
      if userId !in carts {
        return Some(RuntimeException("Cart not found"));
      }
      if productId !in products {
        return Some(ApiException("Product not found", NotFound));
      }
      if productId !in carts[userId] {
        return Some(ApiException("CartProduct not found", NotFound));
      }
      carts := carts[userId := carts[userId] - {productId}];
      return None;
    }

    /** removeProductsFromCart. Lines are deleted one id at a time; an unknown
        product raises 404 after the earlier deletions took effect. A null id (or
        a null list) throws something other than an ApiException, which is
        swallowed: the call then returns normally with the earlier deletions done. */
    method RemoveProductsFromCart(userId: int, productIds: Option<seq<Option<int>>>) returns (failure: Option<Failure>)
      requires Valid()
      modifies this`carts
      ensures Valid()
      ensures userId !in users ==> failure == Some(ApiException("User not found", NotFound)) && carts == old(carts)
      ensures userId in users && userId !in old(carts) ==>
                failure == Some(ApiException("Cart not found", NotFound)) && carts == old(carts)
      ensures userId in old(carts) && productIds.None? ==> failure.None? && carts == old(carts)
      ensures userId in old(carts) && productIds.Some? ==>
                var result := RemoveEach(old(carts)[userId], products, productIds.value);
                carts == old(carts)[userId := result.0]
                && failure == (if result.1 == Some(ApiException("Product not found", NotFound)) then result.1 else None)
    {
      if userId !in users {
        return Some(ApiException("User not found", NotFound));
      }
      if userId !in carts {
        return Some(ApiException("Cart not found", NotFound));
      }
      if productIds.None? {
        return None;
      }
      var ids := productIds.value;
      ghost var start := carts[userId];
      var i := 0;
      while i < |ids|
        invariant 0 <= i <= |ids|
        invariant userId in carts && carts == old(carts)[userId := carts[userId]]
        invariant forall p :: p in carts[userId] ==> p in start && carts[userId][p] == start[p]
        invariant RemoveEach(start, products, ids) == RemoveEach(carts[userId], products, ids[i..])
        invariant Valid()
      {
        var id := ids[i];
        if id.None? {
          // findById(null) throws; the generic catch swallows it
          return None;
        }
        if id.value !in products {
          return Some(ApiException("Product not found", NotFound));
        }
        assert ids[i..][1..] == ids[i + 1..];
        carts := carts[userId := carts[userId] - {id.value}];
        i := i + 1;
      }
      return None;
    }
  }
}
