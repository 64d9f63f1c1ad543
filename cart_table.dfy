/** The `cart` table behind `POST /add`, `PUT /update` and `DELETE /remove`
    (`cartRoutes.js`): one row per (user, product, standardised options), with
    a quantity. A statement that matches no row is an `ItemNotFound` answer. */
module CartRows {
  import opened Base
  import opened CartOptions

  /** The columns a cart row is matched on; `options` is the standardised object
      whose JSON text fills `attributes_json`. */
  datatype RowKey = RowKey(userId: int, productId: int, options: seq<Entry>)

  /** 400 for a bad quantity, 404 for a statement that matched no row. */
  datatype TableError = InvalidQuantity | ItemNotFound

  /** The row a request addresses: the options are standardised first. */
  function KeyOf(userId: int, productId: int, options: Option<seq<Entry>>): (k: RowKey)
    requires options.Some? ==> KeysUnique(options.value)
    ensures k.userId == userId && k.productId == productId && KeysAscending(k.options)
  {
    RowKey(userId, productId, StandardizeOptions(options))
  }

  /** Listing the same options in another order addresses the same row. */
  lemma SameRowAnyOrder(userId: int, productId: int, a: seq<Entry>, b: seq<Entry>)
    requires KeysUnique(a) && KeysUnique(b)
    requires forall x :: x in a <==> x in b
    ensures KeyOf(userId, productId, Some(a)) == KeyOf(userId, productId, Some(b))
  {
    StandardizeCanonical(a, b);
  }

  class CartTable {
    var rows: map<RowKey, int>

    /** Every row holds at least one unit: add and update never store less. */
    predicate Valid()
      reads this
    {
      forall k :: k in rows ==> rows[k] >= 1
    }

    constructor ()
      ensures Valid() && rows == map[]
    {
      rows := map[];
    }

    /** `POST /add`: `quantity` is the result of `parseInt` (`None` for `NaN`).
        A quantity below 1 is refused; otherwise the matching row gains it, or a
        new row is created with it, and no other row changes. */
    method Add(userId: int, productId: int, quantity: Option<int>, options: Option<seq<Entry>>) returns (r: Result<(), TableError>)
      requires Valid()
      requires options.Some? ==> KeysUnique(options.value)
      modifies this
      ensures Valid()
      ensures quantity.None? || quantity.value < 1 ==> r == Err(InvalidQuantity) && rows == old(rows)
      ensures quantity.Some? && quantity.value >= 1 ==>
        var k := KeyOf(userId, productId, options);
        r.Ok?
        && k in rows
        && rows[k] == (if k in old(rows) then old(rows)[k] else 0) + quantity.value
        && forall other :: other != k ==> (other in rows <==> other in old(rows)) && (other in rows ==> rows[other] == old(rows)[other])
    {
      if quantity.None? || quantity.value < 1 {
        return Err(InvalidQuantity);
      }
      var k := KeyOf(userId, productId, options);
      if k in rows {
        rows := rows[k := rows[k] + quantity.value];
      } else {
        rows := rows[k := quantity.value];
      }
      r := Ok(());
    }

    /** `PUT /update`: a quantity below 1 is refused; a missing row answers 404;
        otherwise only the matching row takes the new quantity. */
    method Update(userId: int, productId: int, quantity: int, options: Option<seq<Entry>>) returns (r: Result<(), TableError>)
      requires Valid()
      requires options.Some? ==> KeysUnique(options.value)
      modifies this
      ensures Valid()
      ensures quantity < 1 ==> r == Err(InvalidQuantity) && rows == old(rows)
      ensures quantity >= 1 && KeyOf(userId, productId, options) !in old(rows) ==> r == Err(ItemNotFound) && rows == old(rows)
      ensures quantity >= 1 && KeyOf(userId, productId, options) in old(rows) ==>
        r.Ok? && rows == old(rows)[KeyOf(userId, productId, options) := quantity]
    {
      var k := KeyOf(userId, productId, options);
      if quantity < 1 {
        return Err(InvalidQuantity);
      }
      if k !in rows {
        return Err(ItemNotFound);
      }
      rows := rows[k := quantity];
      r := Ok(());
    }

    /** `DELETE /remove`: deletes exactly the matching row; 404 when there is none. */
    method Remove(userId: int, productId: int, options: Option<seq<Entry>>) returns (r: Result<(), TableError>)
      requires Valid()
      requires options.Some? ==> KeysUnique(options.value)
      modifies this
      ensures Valid()
      ensures KeyOf(userId, productId, options) !in old(rows) ==> r == Err(ItemNotFound) && rows == old(rows)
      ensures KeyOf(userId, productId, options) in old(rows) ==>
        r.Ok? && rows == old(rows) - {KeyOf(userId, productId, options)}
    {
      var k := KeyOf(userId, productId, options);
      if k !in rows {
        return Err(ItemNotFound);
      }
      rows := rows - {k};
      r := Ok(());
    }
  }
}
