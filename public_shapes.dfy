/** The internal-to-public projections of snapshots/10_main.py: stored users
    and items carry secrets (`password`, `owner_id`, `secret_code`) that the
    declared response models `UserOut` and `ItemPublic` leave out. */
module PublicShapes {
  import opened Common

  /** `UserIn`: what a client sends, password included. `full_name` defaults to None. */
  datatype UserIn = UserIn(username: string, password: string, email: string, fullName: Option<string> := None)

  /** `UserOut`: the public shape of a user. `full_name` defaults to None. */
  datatype UserOut = UserOut(username: string, email: string, fullName: Option<string> := None)

  /** `ItemInternal`: a stored item with its owner and secret code. */
  datatype ItemInternal = ItemInternal(name: string, price: real, ownerId: int, secretCode: string)

  /** `ItemPublic`: the public shape of an item. */
  datatype ItemPublic = ItemPublic(name: string, price: real)

  /** `response_model=UserOut` applied to a `UserIn`: keeps username, email and full name. */
  function ToUserOut(u: UserIn): (o: UserOut)
    ensures o.username == u.username && o.email == u.email && o.fullName == u.fullName
  {
    UserOut(u.username, u.email, u.fullName)
  }

  /** `response_model=ItemPublic` applied to an `ItemInternal`: keeps name and price. */
  function ToItemPublic(i: ItemInternal): (p: ItemPublic)
    ensures p.name == i.name && p.price == i.price
  {
    ItemPublic(i.name, i.price)
  }

  /** The public user reveals nothing about the password: users that differ only
      in their password have the same projection. */
  lemma UserOutIndependentOfPassword(u: UserIn, password: string)
    ensures ToUserOut(u.(password := password)) == ToUserOut(u)
  {
  }

  /** The public item reveals nothing about the owner or the secret code. */
  lemma ItemPublicIndependentOfSecrets(i: ItemInternal, ownerId: int, secretCode: string)
    ensures ToItemPublic(i.(ownerId := ownerId, secretCode := secretCode)) == ToItemPublic(i)
  {
  }

  /** `full_name` may be omitted from both shapes and is then None. */
  lemma FullNameDefaults(username: string, password: string, email: string)
    ensures UserIn(username, password, email).fullName == None
    ensures UserOut(username, email).fullName == None
    ensures ToUserOut(UserIn(username, password, email)) == UserOut(username, email)
  {
  }

  /** The projection loses only the secrets: the public fields and the secret ones
      together give back the internal record. */
  lemma UserOutWithPasswordRestores(u: UserIn)
    ensures var o := ToUserOut(u); UserIn(o.username, u.password, o.email, o.fullName) == u
  {
  }

  /** An ordered dictionary `fake_items_db`: id and record, in insertion order. */
  type ItemTable = seq<(int, ItemInternal)>

  predicate DistinctIds(t: ItemTable)
  {
    forall i, j :: 0 <= i < j < |t| ==> t[i].0 != t[j].0
  }

  /** `item_id in fake_items_db` and `fake_items_db[item_id]`. */
  function Lookup(t: ItemTable, id: int): (r: Option<ItemInternal>)
    ensures r.None? <==> forall i :: 0 <= i < |t| ==> t[i].0 != id
    ensures r.Some? ==> exists i :: 0 <= i < |t| && t[i] == (id, r.value)
  {
    if t == [] then None
    else if t[0].0 == id then Some(t[0].1)
    else
      var r := Lookup(t[1..], id);
      assert r.Some? ==> exists i :: 0 <= i < |t[1..]| && t[1..][i] == (id, r.value);
      assert forall i :: 1 <= i < |t| ==> t[i] == t[1..][i - 1];
      r
  }

  /** With distinct ids, the entry found is the one at the position holding that id. */
  lemma LookupAt(t: ItemTable, k: nat)
    requires DistinctIds(t) && k < |t|
    ensures Lookup(t, t[k].0) == Some(t[k].1)
  {
  }

  function SeedItems(): (t: ItemTable)
    ensures DistinctIds(t) && |t| == 3
  {
    [ (1, ItemInternal("keyboard", 75.0, 1, "abc")),
      (2, ItemInternal("Mouse", 25.5, 1, "def")),
      (3, ItemInternal("Monitor", 300.0, 2, "ghi")) ]
  }

  /** The two in-memory stores: users keyed by username, items keyed by id. */
  class Stores {
    var users: map<string, UserIn>
    var items: ItemTable

    ghost predicate Valid()
      reads this
    {
      DistinctIds(items)
    }

    constructor ()
      ensures Valid() && users == map[] && items == SeedItems()
    {
      users := map[];
      items := SeedItems();
    }

    /** `create_user`: store the whole input, password included, under its username
        (an existing entry is overwritten) and answer 201 with the public shape. */
    method CreateUser(user: UserIn) returns (status: int, body: UserOut)
      requires Valid()
      modifies this`users
      ensures Valid() && items == old(items)
      ensures users == old(users)[user.username := user]
      ensures users[user.username].password == user.password
      ensures status == HTTP_201_CREATED && body == ToUserOut(user)
    {
      users := users[user.username := user];
      status := HTTP_201_CREATED;
      body := ToUserOut(user);
    }

    /** `read_user`: 404 "User not found" for an unknown username, otherwise the
        projection of the stored record. */
    function ReadUser(username: string): (r: Result<UserOut>)
      reads this
      ensures r.Raised? <==> username !in users
      ensures r.Raised? ==> r.error == Error(HTTP_404_NOT_FOUND, "User not found")
      ensures r.Ok? ==> r.value == ToUserOut(users[username])
    {
      if username !in users then Raised(Error(HTTP_404_NOT_FOUND, "User not found"))
      else Ok(ToUserOut(users[username]))
    }

    /** `read_items`: one public entry per stored item, in store order. */
    function ReadItems(): (r: seq<ItemPublic>)
      reads this
      ensures |r| == |items|
      ensures forall i :: 0 <= i < |items| ==> r[i] == ToItemPublic(items[i].1)
    {
      seq(|items|, i requires 0 <= i < |items| reads this => ToItemPublic(items[i].1))
    }

    /** `read_single_item`: 404 "Item not found" for an absent id, otherwise the
        public shape of the one stored record with that id. */
    function ReadSingleItem(id: int): (r: Result<ItemPublic>)
      requires Valid()
      reads this
      ensures r.Raised? <==> forall i :: 0 <= i < |items| ==> items[i].0 != id
      ensures r.Raised? ==> r.error == Error(HTTP_404_NOT_FOUND, "Item not found")
      ensures forall i :: 0 <= i < |items| && items[i].0 == id ==> r == Ok(ToItemPublic(items[i].1))
    {
      assert forall i :: 0 <= i < |items| && items[i].0 == id ==> Lookup(items, id) == Some(items[i].1) by {
        forall i | 0 <= i < |items| && items[i].0 == id ensures Lookup(items, id) == Some(items[i].1) {
          LookupAt(items, i);
        }
      }
      match Lookup(items, id)
      case None => Raised(Error(HTTP_404_NOT_FOUND, "Item not found"))
      case Some(it) => Ok(ToItemPublic(it))
    }
  }

  /** Creating a user and reading it back yields the public shape of what was sent. */
  method CreateThenRead(s: Stores, user: UserIn) returns (r: Result<UserOut>)
    requires s.Valid()
    modifies s`users
    ensures user.username in s.users && s.users[user.username] == user
    ensures r == Ok(ToUserOut(user))
  {
    var status, body := s.CreateUser(user);
    r := s.ReadUser(user.username);
  }
}
