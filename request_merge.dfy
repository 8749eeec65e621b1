/** The response dictionaries of snapshots/05_main.py, built from
    `item.model_dump()` and extended with path and query values. */
module RequestMerge {
  import opened Common

  /** A JSON value as the handlers' dictionaries hold it. */
  datatype Json =
    | Null
    | Int(i: int)
    | Num(r: real)
    | Str(s: string)
    | Object(fields: map<string, Json>)

  /** `Item`: `name` and `price` are required, `description` and `tax` default to None. */
  datatype Item = Item(name: string, price: real, description: Option<string> := None, tax: Option<real> := None)

  function OptStr(o: Option<string>): Json { if o.Some? then Str(o.value) else Null }
  function OptNum(o: Option<real>): Json { if o.Some? then Num(o.value) else Null }

  /** `item.model_dump()`: the four declared fields, absent optionals as null. */
  function Dump(item: Item): (d: map<string, Json>)
    ensures d.Keys == {"name", "description", "price", "tax"}
  {
    map["name" := Str(item.name), "description" := OptStr(item.description),
        "price" := Num(item.price), "tax" := OptNum(item.tax)]
  }

  /** Reads a dumped dictionary back as an `Item`. */
  function Load(d: map<string, Json>): Option<Item>
  {
    if "name" in d && d["name"].Str? && "price" in d && d["price"].Num?
       && "description" in d && (d["description"].Str? || d["description"].Null?)
       && "tax" in d && (d["tax"].Num? || d["tax"].Null?)
    then Some(Item(d["name"].s, d["price"].r,
                   if d["description"].Str? then Some(d["description"].s) else None,
                   if d["tax"].Num? then Some(d["tax"].r) else None))
    else None
  }

  /** The dump loses nothing: it reads back as the same item. */
  lemma LoadDump(item: Item)
    ensures Load(Dump(item)) == Some(item)
  {
  }

  /** Python truthiness of `item.tax`: present and not zero. */
  predicate TaxIsTruthy(tax: Option<real>)
  {
    tax.Some? && tax.value != 0.0
  }

  /** `create_item`: the dump, plus `price_with_tax = price + tax` when the tax is truthy. */
  function CreateItem(item: Item): (r: map<string, Json>)
    ensures "price_with_tax" in r <==> TaxIsTruthy(item.tax)
    ensures TaxIsTruthy(item.tax) ==> r["price_with_tax"] == Num(item.price + item.tax.value)
    ensures r.Keys == Dump(item).Keys + (if TaxIsTruthy(item.tax) then {"price_with_tax"} else {})
    ensures forall k :: k in Dump(item) ==> r[k] == Dump(item)[k]
  {
    var itemDict := Dump(item);
    if TaxIsTruthy(item.tax) then itemDict["price_with_tax" := Num(item.price + item.tax.value)]
    else itemDict
  }

  /** The created response still reads back as the item that was sent. */
  lemma CreateItemKeepsItem(item: Item)
    ensures Load(CreateItem(item)) == Some(item)
  {
  }

  /** `update_item`: the path id beside the dump, nested under `updated_item_data`. */
  function UpdateItem(itemId: int, item: Item): (r: map<string, Json>)
    ensures r.Keys == {"item_id", "updated_item_data"}
    ensures r["item_id"] == Int(itemId)
    ensures r["updated_item_data"].Object? && Load(r["updated_item_data"].fields) == Some(item)
  {
    map["item_id" := Int(itemId), "updated_item_data" := Object(Dump(item))]
  }

  /** Python truthiness of `q`: present and not empty. */
  predicate QueryIsTruthy(q: Option<string>)
  {
    q.Some? && q.value != ""
  }

  /** `update_item_complex`: the path id merged with the dump, plus `query_param_q`
      only when `q` is non-empty. */
  function UpdateItemComplex(itemId: int, item: Item, q: Option<string>): (r: map<string, Json>)
    ensures r.Keys == {"item_id"} + Dump(item).Keys + (if QueryIsTruthy(q) then {"query_param_q"} else {})
    ensures r["item_id"] == Int(itemId)
    ensures forall k :: k in Dump(item) ==> r[k] == Dump(item)[k]
    ensures QueryIsTruthy(q) ==> r["query_param_q"] == Str(q.value)
    ensures Load(r) == Some(item)
  {
    var result := Dump(item)["item_id" := Int(itemId)];
    if QueryIsTruthy(q) then result["query_param_q" := Str(q.value)] else result
  }

  /** An item sent with only its required fields has null description and tax, so
      no `price_with_tax` is added. */
  lemma DefaultsGiveNoTax(name: string, price: real)
    ensures Dump(Item(name, price))["description"] == Null && Dump(Item(name, price))["tax"] == Null
    ensures "price_with_tax" !in CreateItem(Item(name, price))
  {
  }
}
