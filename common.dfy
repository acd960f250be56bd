/**
 * Values shared by the marketplace's pages: an optional value, the product
 * entry that both the catalogue and the cart hold, and the raw product record
 * as it is stored under `products/{key}`.
 */
module Common {

  datatype Option<+T> = None | Some(value: T)

  /**
   * A catalogue product, and equally a cart line (a cart line is the product
   * object itself, possibly with a `quantity` field set). Prices are integer
   * paise; `quantity` is absent on a product that was never updated in the cart.
   */
  datatype Item = Item(
    id: string,
    name: string,
    description: string,
    imageUrl: string,
    price: nat,
    category: string,
    quantity: Option<int>)

  /**
   * A product as it is stored in the database: the same fields, where `id`
   * is present only if the stored object happens to carry one of its own.
   */
  datatype ProductRecord = ProductRecord(
    id: Option<string>,
    name: string,
    description: string,
    imageUrl: string,
    price: nat,
    category: string,
    quantity: Option<int>)

  /** The ids of a sequence of items, in order. */
  function Ids(items: seq<Item>): (r: seq<string>)
    ensures |r| == |items|
    ensures forall i :: 0 <= i < |items| ==> r[i] == items[i].id
  {
    if items == [] then [] else Ids(items[..|items| - 1]) + [items[|items| - 1].id]
  }

  /** No two items of a cart share an id. */
  predicate DistinctIds(items: seq<Item>)
  {
    forall i, j :: 0 <= i < j < |items| ==> items[i].id != items[j].id
  }

  /** `item.quantity || 1`: a missing or zero quantity counts as one. */
  function ItemQty(item: Item): (q: int)
    ensures q != 0
    ensures item.quantity.Some? && item.quantity.value != 0 ==> q == item.quantity.value
    ensures item.quantity == None || item.quantity == Some(0) ==> q == 1
  {
    match item.quantity
    case None => 1
    case Some(n) => if n == 0 then 1 else n
  }

  /**
   * `Object.keys(val).map(key => ({id: key, ...val[key]}))`, the product list
   * both catalogue pages build from the `products` snapshot, given as its
   * entries in key order. The spread comes after `id`, so a record that
   * carries an `id` of its own keeps it.
   */
  function ProductsFromSnapshot(entries: seq<(string, ProductRecord)>): (r: seq<Item>)
    ensures |r| == |entries|
    ensures forall i :: 0 <= i < |entries| ==>
              var (key, rec) := entries[i];
              r[i] == Item(if rec.id.Some? then rec.id.value else key, rec.name, rec.description,
                           rec.imageUrl, rec.price, rec.category, rec.quantity)
  {
    if entries == [] then []
    else
      var (key, rec) := entries[0];
      [Item(if rec.id.Some? then rec.id.value else key, rec.name, rec.description,
            rec.imageUrl, rec.price, rec.category, rec.quantity)]
      + ProductsFromSnapshot(entries[1..])
  }

  /** One product per snapshot key; when no stored record carries its own id, each id is its key. */
  lemma ProductIdsAreKeys(entries: seq<(string, ProductRecord)>)
    requires forall i :: 0 <= i < |entries| ==> entries[i].1.id == None
    ensures |ProductsFromSnapshot(entries)| == |entries|
    ensures forall i :: 0 <= i < |entries| ==> ProductsFromSnapshot(entries)[i].id == entries[i].0
  {
  }
}
