/** The keyed item store of snapshots/12_main.py: a dictionary `items_db` from
    integer ids to items and a running counter `item_next_id`, with create,
    delete and update handlers and one route that returns a raw response. */
module ItemStore {
  import opened Common

  /** `Item(BaseModel)`: the request body and the declared response model. */
  datatype Item = Item(name: string, price: real)

  /** The dictionary `create_item` returns: the stored item with its id added. */
  datatype CreatedInfo = CreatedInfo(id: int, name: string, price: real)

  /** What a handler call answers. */
  datatype Reply =
    | Created(body: Item)               // 201, the returned dictionary shaped by `response_model=Item`
    | NoContent                         // 204, no body
    | Failed(error: HttpError)          // the handler raised an `HTTPException`
    | ReturnedException(status: int)    // the handler RETURNED an `HTTPException` object instead of raising it
    | Updated(body: Item)               // 200, the new stored value shaped by `response_model=Item`
    | Raw(content: string, mediaType: string, status: int)  // a `Response` passed through unshaped

  /** The store as a value: the dictionary and the counter. */
  datatype Store = Store(items: map<int, Item>, nextId: int)

  /** The store's invariant: the counter is above every id in use. */
  predicate IdsBelowCounter(s: Store)
  {
    forall k :: k in s.items ==> k < s.nextId
  }

  /** The module-level state: two seeded items and the counter at 3. */
  function Initial(): (s: Store)
    ensures IdsBelowCounter(s)
    ensures s.items.Keys == {1, 2} && s.nextId == 3
  {
    Store(map[1 := Item("Laptop", 1200.0), 2 := Item("keyboard", 75.0)], 3)
  }

  /** `response_model=Item` keeps the declared fields `name` and `price` of the returned dictionary. */
  function ShapeAsItem(info: CreatedInfo): (r: Item)
    ensures r.name == info.name && r.price == info.price
  {
    Item(info.name, info.price)
  }

  /** The dictionary `{"id": item_next_id, **item.model_dump()}`. */
  function WithId(id: int, item: Item): (info: CreatedInfo)
    ensures info.id == id && info.name == item.name && info.price == item.price
  {
    CreatedInfo(id, item.name, item.price)
  }

  /** Shaping the created record removes exactly what `create_item` added: the id. */
  lemma ShapeDropsId(id: int, item: Item)
    ensures ShapeAsItem(WithId(id, item)) == item
  {
  }

  const ITEM_NOT_FOUND := "Item not found"

  /** `create_item`: store the item under the counter, then advance the counter. */
  function Create(s: Store, item: Item): (r: (Store, Reply))
    ensures r.0.nextId == s.nextId + 1
    ensures s.nextId in r.0.items && r.0.items[s.nextId] == item
    ensures forall k :: k != s.nextId ==> (k in r.0.items <==> k in s.items)
    ensures forall k :: k in s.items && k != s.nextId ==> r.0.items[k] == s.items[k]
    ensures IdsBelowCounter(s) ==> s.nextId !in s.items && IdsBelowCounter(r.0)
    ensures IdsBelowCounter(s) ==> |r.0.items| == |s.items| + 1
    ensures r.1 == Created(item)
  {
    var info := WithId(s.nextId, item);
    ShapeDropsId(s.nextId, item);
    (Store(s.items[s.nextId := item], s.nextId + 1), Created(ShapeAsItem(info)))
  }

  /** `delete_item`: remove an existing id and answer 204; an absent id raises 404. */
  function Delete(s: Store, id: int): (r: (Store, Reply))
    ensures r.0.nextId == s.nextId
    ensures id in s.items ==> r.0.items.Keys == s.items.Keys - {id} && r.1 == NoContent
    ensures id !in s.items ==> r.0 == s && r.1 == Failed(Error(HTTP_404_NOT_FOUND, ITEM_NOT_FOUND))
    ensures forall k :: k in r.0.items ==> k in s.items && r.0.items[k] == s.items[k]
    ensures IdsBelowCounter(s) ==> IdsBelowCounter(r.0)
  {
    if id in s.items then (Store(s.items - {id}, s.nextId), NoContent)
    else (s, Failed(Error(HTTP_404_NOT_FOUND, ITEM_NOT_FOUND)))
  }

  /** `update_item`: 404 for an absent id; equal data leaves the store alone and the
      handler returns (does not raise) an `HTTPException(304)`; different data
      overwrites that one entry and is returned. */
  function Update(s: Store, id: int, item: Item): (r: (Store, Reply))
    ensures r.0.nextId == s.nextId && r.0.items.Keys == s.items.Keys
    ensures id !in s.items ==> r.0 == s && r.1 == Failed(Error(HTTP_404_NOT_FOUND, ITEM_NOT_FOUND))
    ensures id in s.items && s.items[id] == item ==> r.0 == s && r.1 == ReturnedException(HTTP_304_NOT_MODIFIED)
    ensures id in s.items && s.items[id] != item ==> r.0.items[id] == item && r.1 == Updated(item)
    ensures forall k :: k in s.items && k != id ==> r.0.items[k] == s.items[k]
    ensures IdsBelowCounter(s) ==> IdsBelowCounter(r.0)
  {
    if id !in s.items then (s, Failed(Error(HTTP_404_NOT_FOUND, ITEM_NOT_FOUND)))
    else if s.items[id] == item then (s, ReturnedException(HTTP_304_NOT_MODIFIED))
    else (Store(s.items[id := item], s.nextId), Updated(item))
  }

  const LEGACY_CONTENT := "<legacy><name>Old Data</name><price>10.0</price></legacy>"

  /** `get_legacy_data`: a raw XML `Response`; `response_model=Item` is not applied to it. */
  function GetLegacyData(): (r: Reply)
    ensures r.Raw? && r.status == HTTP_200_OK && r.mediaType == "application/xml"
    ensures r.content == LEGACY_CONTENT
  {
    Raw(LEGACY_CONTENT, "application/xml", HTTP_200_OK)
  }

  // ---------------------------------------------------------------------------
  // Sequences of requests

  datatype Request = CreateReq(item: Item) | DeleteReq(id: int) | UpdateReq(id: int, item: Item)

  function Step(s: Store, req: Request): Store
  {
    match req
    case CreateReq(item) => Create(s, item).0
    case DeleteReq(id) => Delete(s, id).0
    case UpdateReq(id, item) => Update(s, id, item).0
  }

  function Run(s: Store, reqs: seq<Request>): Store
    decreases |reqs|
  {
    if reqs == [] then s else Run(Step(s, reqs[0]), reqs[1..])
  }

  function CountCreates(reqs: seq<Request>): nat
  {
    if reqs == [] then 0 else (if reqs[0].CreateReq? then 1 else 0) + CountCreates(reqs[1..])
  }

  /** After any sequence of requests the counter is above every id in use, and it
      has advanced by exactly the number of creates. */
  lemma {:induction false} RunKeepsInvariant(s: Store, reqs: seq<Request>)
    requires IdsBelowCounter(s)
    ensures IdsBelowCounter(Run(s, reqs))
    ensures Run(s, reqs).nextId == s.nextId + CountCreates(reqs)
    decreases |reqs|
  {
    if reqs != [] {
      RunKeepsInvariant(Step(s, reqs[0]), reqs[1..]);
    }
  }

  /** From the initial state, the id the next create receives is never in use. */
  lemma NextIdIsFresh(reqs: seq<Request>)
    ensures Run(Initial(), reqs).nextId !in Run(Initial(), reqs).items
    ensures Run(Initial(), reqs).nextId == 3 + CountCreates(reqs)
  {
    RunKeepsInvariant(Initial(), reqs);
  }

  // ---------------------------------------------------------------------------
  // The module-level state, updated in place

  class ItemDatabase {
    var items: map<int, Item>
    var nextId: int

    function State(): Store
      reads this
    {
      Store(items, nextId)
    }

    ghost predicate Valid()
      reads this
    {
      IdsBelowCounter(State())
    }

    constructor ()
      ensures Valid() && State() == Initial()
    {
      items, nextId := Initial().items, Initial().nextId;
    }

    method CreateItem(item: Item) returns (reply: Reply)
      requires Valid()
      modifies this
      ensures Valid()
      ensures (State(), reply) == Create(old(State()), item)
    {
      var info := WithId(nextId, item);
      items := items[nextId := item];
      nextId := nextId + 1;
      reply := Created(ShapeAsItem(info));
    }

    method DeleteItem(id: int) returns (reply: Reply)
      requires Valid()
      modifies this
      ensures Valid()
      ensures (State(), reply) == Delete(old(State()), id)
    {
      if id in items {
        items := items - {id};
        reply := NoContent;
      } else {
        reply := Failed(Error(HTTP_404_NOT_FOUND, ITEM_NOT_FOUND));
      }
    }

    method UpdateItem(id: int, item: Item) returns (reply: Reply)
      requires Valid()
      modifies this
      ensures Valid()
      ensures (State(), reply) == Update(old(State()), id, item)
    {
      if id !in items {
        reply := Failed(Error(HTTP_404_NOT_FOUND, ITEM_NOT_FOUND));
        return;
      }
      if items[id] == item {
        reply := ReturnedException(HTTP_304_NOT_MODIFIED);
      } else {
        items := items[id := item];
        reply := Updated(items[id]);
      }
    }
  }
}
