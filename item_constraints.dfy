/** The declared field constraints and the custom name validator of
    snapshots/06_main.py, and its `create_item` / `read_item` handlers over
    `items_db`, where new ids are `len(items_db) + 1`. */
module ItemConstraints {
  import opened Common
  import opened Strings

  const NAME_MIN_LENGTH := 3
  const NAME_MAX_LENGTH := 50
  const DESCRIPTION_MAX_LENGTH := 300
  const PRICE_MAX: real := 100000.0
  const TAG_MIN_ITEMS := 1
  const TAG_MAX_ITEMS := 5
  const ADMIN_MESSAGE := "Item name cannot contain 'admin'"

  /** A request body as received: a required field may be missing (None), an
      optional one absent or null (None), and `tag` omitted (None). */
  datatype RawItem = RawItem(
    name: Option<string>,
    description: Option<string>,
    price: Option<real>,
    tax: Option<real>,
    tag: Option<seq<string>>)

  /** A validated `Item`, as `model_dump()` stores it. */
  datatype Item = Item(
    name: string,
    description: Option<string>,
    price: real,
    tax: Option<real>,
    tag: seq<string>)

  /** Which declared rule a field broke. */
  datatype Violation =
    | Missing                         // a required field without a default was not sent
    | TooShort(minLength: nat)        // `min_length` on a string or a list
    | TooLong(maxLength: nat)         // `max_length` on a string or a list
    | NotGreaterThan(gt: real)        // `gt`
    | NotAtMost(le: real)             // `le`
    | ValidatorError(message: string) // a `ValueError` raised by a field validator

  datatype FieldError = FieldError(field: string, violation: Violation)

  /** The rules on `name`: its length constraints first, then `name_must_not_be_admin`. */
  function NameViolation(name: Option<string>): Option<Violation>
  {
    match name
    case None => Some(Missing)
    case Some(n) =>
      if |n| < NAME_MIN_LENGTH then Some(TooShort(NAME_MIN_LENGTH))
      else if |n| > NAME_MAX_LENGTH then Some(TooLong(NAME_MAX_LENGTH))
      else if Contains(Lower(n), "admin") then Some(ValidatorError(ADMIN_MESSAGE))
      else None
  }

  function DescriptionViolation(description: Option<string>): Option<Violation>
  {
    match description
    case None => None
    case Some(d) => if |d| > DESCRIPTION_MAX_LENGTH then Some(TooLong(DESCRIPTION_MAX_LENGTH)) else None
  }

  function PriceViolation(price: Option<real>): Option<Violation>
  {
    match price
    case None => Some(Missing)
    case Some(p) =>
      if !(p > 0.0) then Some(NotGreaterThan(0.0))
      else if !(p <= PRICE_MAX) then Some(NotAtMost(PRICE_MAX))
      else None
  }

  function TaxViolation(tax: Option<real>): Option<Violation>
  {
    match tax
    case None => None
    case Some(t) => if !(t > 0.0) then Some(NotGreaterThan(0.0)) else None
  }

  /** An omitted `tag` takes the default `[]`, which is not checked against the constraints. */
  function TagViolation(tag: Option<seq<string>>): Option<Violation>
  {
    match tag
    case None => None
    case Some(ts) =>
      if |ts| < TAG_MIN_ITEMS then Some(TooShort(TAG_MIN_ITEMS))
      else if |ts| > TAG_MAX_ITEMS then Some(TooLong(TAG_MAX_ITEMS))
      else None
  }

  function Report(field: string, v: Option<Violation>): seq<FieldError>
  {
    if v.Some? then [FieldError(field, v.value)] else []
  }

  /** Every field is checked, in declaration order, and every failure is reported. */
  function Errors(raw: RawItem): seq<FieldError>
  {
    Report("name", NameViolation(raw.name))
    + Report("description", DescriptionViolation(raw.description))
    + Report("price", PriceViolation(raw.price))
    + Report("tax", TaxViolation(raw.tax))
    + Report("tag", TagViolation(raw.tag))
  }

  datatype Validated = Accepted(item: Item) | Rejected(errors: seq<FieldError>)

  predicate Reported(errors: seq<FieldError>, field: string)
  {
    exists e :: e in errors && e.field == field
  }

  /** The declared constraints, stated directly on the raw fields. */
  predicate Acceptable(raw: RawItem)
  {
    && raw.name.Some? && NAME_MIN_LENGTH <= |raw.name.value| <= NAME_MAX_LENGTH
    && !Contains(Lower(raw.name.value), "admin")
    && (raw.description.Some? ==> |raw.description.value| <= DESCRIPTION_MAX_LENGTH)
    && raw.price.Some? && 0.0 < raw.price.value <= PRICE_MAX
    && (raw.tax.Some? ==> raw.tax.value > 0.0)
    && (raw.tag.Some? ==> TAG_MIN_ITEMS <= |raw.tag.value| <= TAG_MAX_ITEMS)
  }

  /** Validation of an `Item` body: accepted exactly when every declared constraint
      holds, with the name replaced by its title-cased form and an omitted tag
      list by `[]`; otherwise rejected with one error for each failing field. */
  function Validate(raw: RawItem): (r: Validated)
    ensures r.Accepted? <==> Acceptable(raw)
    ensures r.Accepted? ==> r.item == Item(Title(raw.name.value), raw.description, raw.price.value, raw.tax,
                                           if raw.tag.Some? then raw.tag.value else [])
    ensures r.Rejected? ==> r.errors == Errors(raw) && |r.errors| > 0
  {
    var errors := Errors(raw);
    if errors == [] then
      Accepted(Item(Title(raw.name.value), raw.description, raw.price.value, raw.tax,
                    if raw.tag.Some? then raw.tag.value else []))
    else Rejected(errors)
  }

  lemma ReportedConcat(a: seq<FieldError>, b: seq<FieldError>, field: string)
    ensures Reported(a + b, field) <==> Reported(a, field) || Reported(b, field)
  {
    if Reported(a + b, field) {
      var e :| e in a + b && e.field == field;
      assert e in a || e in b;
    }
    if Reported(a, field) {
      var e :| e in a && e.field == field;
      assert e in a + b;
    }
    if Reported(b, field) {
      var e :| e in b && e.field == field;
      assert e in a + b;
    }
  }

  lemma ReportedSingle(g: string, v: Option<Violation>, field: string)
    ensures Reported(Report(g, v), field) <==> g == field && v.Some?
  {
    if v.Some? && g == field {
      assert FieldError(g, v.value) in Report(g, v);
    }
  }

  /** A rejection names exactly the fields that break a rule, and no other. */
  lemma RejectionNamesFailingFields(raw: RawItem)
    ensures Reported(Errors(raw), "name") <==> !(raw.name.Some? && NAME_MIN_LENGTH <= |raw.name.value| <= NAME_MAX_LENGTH
                                                && !Contains(Lower(raw.name.value), "admin"))
    ensures Reported(Errors(raw), "description") <==> raw.description.Some? && |raw.description.value| > DESCRIPTION_MAX_LENGTH
    ensures Reported(Errors(raw), "price") <==> !(raw.price.Some? && 0.0 < raw.price.value <= PRICE_MAX)
    ensures Reported(Errors(raw), "tax") <==> raw.tax.Some? && raw.tax.value <= 0.0
    ensures Reported(Errors(raw), "tag") <==> raw.tag.Some? && !(TAG_MIN_ITEMS <= |raw.tag.value| <= TAG_MAX_ITEMS)
  {
    var a := Report("name", NameViolation(raw.name));
    var b := Report("description", DescriptionViolation(raw.description));
    var c := Report("price", PriceViolation(raw.price));
    var d := Report("tax", TaxViolation(raw.tax));
    var e := Report("tag", TagViolation(raw.tag));
    var fields := ["name", "description", "price", "tax", "tag"];
    forall f | f in fields
      ensures Reported(Errors(raw), f) <==>
              Reported(a, f) || Reported(b, f) || Reported(c, f) || Reported(d, f) || Reported(e, f)
    {
      ReportedConcat(a, b, f);
      ReportedConcat(a + b, c, f);
      ReportedConcat(a + b + c, d, f);
      ReportedConcat(a + b + c + d, e, f);
    }
    forall f | f in fields
      ensures Reported(a, f) <==> f == "name" && NameViolation(raw.name).Some?
      ensures Reported(b, f) <==> f == "description" && DescriptionViolation(raw.description).Some?
      ensures Reported(c, f) <==> f == "price" && PriceViolation(raw.price).Some?
      ensures Reported(d, f) <==> f == "tax" && TaxViolation(raw.tax).Some?
      ensures Reported(e, f) <==> f == "tag" && TagViolation(raw.tag).Some?
    {
      ReportedSingle("name", NameViolation(raw.name), f);
      ReportedSingle("description", DescriptionViolation(raw.description), f);
      ReportedSingle("price", PriceViolation(raw.price), f);
      ReportedSingle("tax", TaxViolation(raw.tax), f);
      ReportedSingle("tag", TagViolation(raw.tag), f);
    }
    assert "name" in fields && "description" in fields && "price" in fields && "tax" in fields && "tag" in fields;
  }

  /** A name of acceptable length that contains "admin" in any letter case is
      rejected with the validator's message. */
  lemma AdminNameRejected(raw: RawItem)
    requires raw.name.Some? && NAME_MIN_LENGTH <= |raw.name.value| <= NAME_MAX_LENGTH
    requires Contains(Lower(raw.name.value), "admin")
    ensures Validate(raw).Rejected?
    ensures FieldError("name", ValidatorError(ADMIN_MESSAGE)) in Validate(raw).errors
  {
  }

  /** The body an accepted item would be sent as. */
  function AsRaw(item: Item): RawItem
  {
    RawItem(Some(item.name), item.description, Some(item.price), item.tax, Some(item.tag))
  }

  /** What is stored passes validation again and comes back unchanged, provided the
      tag list was given: the title-cased name keeps its length and still contains
      no "admin". */
  lemma RevalidationIsStable(raw: RawItem)
    requires Validate(raw).Accepted? && raw.tag.Some?
    ensures Validate(AsRaw(Validate(raw).item)) == Validate(raw)
  {
    var item := Validate(raw).item;
    LowerTitle(raw.name.value);
    TitleIdempotent(raw.name.value);
  }

  /** A validated item. */
  predicate ItemInvariant(item: Item)
  {
    && NAME_MIN_LENGTH <= |item.name| <= NAME_MAX_LENGTH
    && !Contains(Lower(item.name), "admin")
    && Title(item.name) == item.name
    && (item.description.Some? ==> |item.description.value| <= DESCRIPTION_MAX_LENGTH)
    && 0.0 < item.price <= PRICE_MAX
    && (item.tax.Some? ==> item.tax.value > 0.0)
    && |item.tag| <= TAG_MAX_ITEMS
  }

  /** Every accepted item satisfies the constraints, in title case. */
  lemma AcceptedSatisfiesInvariant(raw: RawItem)
    requires Validate(raw).Accepted?
    ensures ItemInvariant(Validate(raw).item)
  {
    LowerTitle(raw.name.value);
    TitleIdempotent(raw.name.value);
  }

  /** `{"item_id": item_id, **items_db[item_id]}`. */
  datatype ItemWithId = ItemWithId(itemId: int, item: Item)

  datatype CreateReply =
    | Created(body: ItemWithId)               // 201
    | Unprocessable(status: int, errors: seq<FieldError>)  // 422: the body failed validation; the handler does not run

  /** `items_db` of this file: ids are always exactly 1..n. */
  class ItemsDb {
    var items: map<int, Item>

    ghost predicate Valid()
      reads this
    {
      && (forall k :: k in items <==> 1 <= k <= |items|)
      && (forall k :: k in items ==> ItemInvariant(items[k]))
    }

    constructor ()
      ensures Valid() && items == map[]
    {
      items := map[];
    }

    /** `create_item` behind the validation of its body: an accepted item is stored
        under `len(items_db) + 1`, a fresh id, and returned with it under 201. */
    method CreateItem(raw: RawItem) returns (reply: CreateReply)
      requires Valid()
      modifies this
      ensures Valid()
      ensures Validate(raw).Rejected? ==> items == old(items) && reply == Unprocessable(HTTP_422_UNPROCESSABLE_ENTITY, Validate(raw).errors)
      ensures Validate(raw).Accepted? ==>
        var id := |old(items)| + 1;
        && id !in old(items)
        && items == old(items)[id := Validate(raw).item]
        && reply == Created(ItemWithId(id, Validate(raw).item))
    {
      var v := Validate(raw);
      if v.Rejected? {
        reply := Unprocessable(HTTP_422_UNPROCESSABLE_ENTITY, v.errors);
        return;
      }
      AcceptedSatisfiesInvariant(raw);
      var id := |items| + 1;
      assert id !in items;
      items := items[id := v.item];
      reply := Created(ItemWithId(id, items[id]));
    }

    /** `read_item`: the id merged with the stored fields, or 404 "Item not found". */
    function ReadItem(id: int): (r: Result<ItemWithId>)
      reads this
      ensures r.Raised? <==> id !in items
      ensures r.Raised? ==> r.error == Error(HTTP_404_NOT_FOUND, "Item not found")
      ensures r.Ok? ==> r.value.itemId == id && r.value.item == items[id]
    {
      if id !in items then Raised(Error(HTTP_404_NOT_FOUND, "Item not found"))
      else Ok(ItemWithId(id, items[id]))
    }
  }
}
