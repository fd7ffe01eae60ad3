/**
 * The four request handlers and the liveness probe, each a method over the
 * injected collection. A handler returns either a JSON message (with the new
 * id for add_item) or the HTTP error it raises.
 */
module Routes {
  import opened Wrappers
  import opened Names
  import opened ObjectIds
  import opened Collection
  import opened Models

  datatype Response =
    | Ok(message: string, id: Option<string>)
    | Err(status: nat, detail: string)

  const AliveMessage := "Grocery Microservice Running"
  const AddedMessage := "Item added successfully"
  const DuplicateDetail := "Item already exists in the grocery list"
  const DeletedMessage := "Item deleted successfully"
  const NotFoundDetail := "Item not found"
  const NoFieldsDetail := "No fields to update"
  const UpdatedMessage := "Item updated successfully"
  const InsertedMessage := "Item not found, inserted instead."

  /** Some stored name equals `name` ignoring case. */
  ghost predicate NameTaken(docs: seq<Doc>, name: string) {
    exists i :: 0 <= i < |docs| && SameIgnoringCase(docs[i].itemName, name)
  }

  /** A client's optional date as it is stored by a raw insert. */
  function ClientDate(date: Option<string>): Option<Stamp> {
    if date.Some? then Some(ClientText(date.value)) else None
  }

  /** GET /isAlive. */
  method IsAlive() returns (r: Response)
    ensures r == Ok(AliveMessage, None)
  {
    r := Ok(AliveMessage, None);
  }

  /** POST /add_item: refuse a name already stored under any case; otherwise
      store the item stamped with the server's clock `now`, whatever date the
      client sent, and answer with the new id's text. */
  method AddItem(store: Store, item: GroceryItem, now: int) returns (r: Response)
    requires store.Valid()
    requires IsRegexLiteral(item.itemName)
    modifies store
    ensures store.Valid()
    ensures NameTaken(old(store.docs), item.itemName) ==>
      && r == Err(400, DuplicateDetail)
      && store.docs == old(store.docs)
      && store.nextId == old(store.nextId)
    ensures !NameTaken(old(store.docs), item.itemName) ==>
      && r == Ok(AddedMessage, Some(IdText(old(store.nextId))))
      && store.docs == old(store.docs) + [Doc(old(store.nextId), item.itemName, item.quantity, Some(ServerTime(now)))]
      && store.nextId == old(store.nextId) + 1
    ensures r.Ok? ==> store.docs[|store.docs| - 1].date == Some(ServerTime(now))
    ensures old(UniqueNames(store.docs)) ==> UniqueNames(store.docs)
  {
    var existing := store.FindOne(NameLike(item.itemName));
    if existing.Some? {
      return Err(400, DuplicateDetail);
    }
    ghost var before := store.docs;
    var id := store.InsertOne(item.itemName, item.quantity, Some(ServerTime(now)));
    if UniqueNames(before) {
      PairwiseAppend(before, store.docs[|before|], DistinctNames);
    }
    r := Ok(AddedMessage, Some(IdText(id)));
  }

  /** GET /get_items: every document in store order, its `_id` replaced by
      the id's text. */
  method GetItems(store: Store) returns (items: seq<Entry>)
    requires store.Valid()
    ensures |items| == |store.docs|
    ensures forall i :: 0 <= i < |items| ==>
      && items[i].id == IdString(IdText(store.docs[i].id))
      && items[i].itemName == store.docs[i].itemName
      && items[i].quantity == store.docs[i].quantity
      && items[i].date == store.docs[i].date
    ensures forall i, j :: 0 <= i < j < |items| ==> items[i].id != items[j].id
  {
    var found := store.Find();
    var i := 0;
    while i < found.Length
      invariant 0 <= i <= found.Length
      invariant forall j :: 0 <= j < i ==>
        found[j] == Projected(store.docs[j]).(id := IdString(IdText(store.docs[j].id)))
      invariant forall j :: i <= j < found.Length ==> found[j] == Projected(store.docs[j])
    {
      found[i] := found[i].(id := IdString(IdText(found[i].id.oid)));
      i := i + 1;
    }
    items := found[..];
    forall i, j | 0 <= i < j < |items| ensures items[i].id != items[j].id {
      assert IdBefore(store.docs[i], store.docs[j]);
      IdTextInjective(store.docs[i].id, store.docs[j].id);
    }
  }

  /** DELETE /delete_item/{item_name}: remove every document with exactly
      this name; 404 when there was none. */
  method DeleteItem(store: Store, itemName: string) returns (r: Response)
    requires store.Valid()
    modifies store
    ensures store.Valid() && store.nextId == old(store.nextId)
    ensures store.docs == Without(old(store.docs), NameIs(itemName))
    ensures forall d :: d in store.docs ==> d.itemName != itemName
    ensures forall d :: d in old(store.docs) && d.itemName != itemName ==> d in store.docs
    ensures r.Ok? <==> exists i :: 0 <= i < |old(store.docs)| && old(store.docs)[i].itemName == itemName
    ensures r.Ok? ==> r == Ok(DeletedMessage, None)
    ensures r.Err? ==> r == Err(404, NotFoundDetail) && store.docs == old(store.docs)
    ensures old(UniqueNames(store.docs)) ==> UniqueNames(store.docs)
  {
    ghost var before := store.docs;
    WithoutNothing(before, NameIs(itemName));
    if UniqueNames(before) {
      WithoutPairwise(before, NameIs(itemName), DistinctNames);
    }
    var deleted := store.DeleteMany(NameIs(itemName));
    if deleted == 0 {
      return Err(404, NotFoundDetail);
    }
    r := Ok(DeletedMessage, None);
  }

  /** PUT /update_item: set the quantity of the first document named exactly
      `item.itemName` (its name is set to the same value); when none is, insert
      the payload as sent. 400 when the update set would be empty. */
  method UpdateItem(store: Store, item: GroceryItem) returns (r: Response)
    requires store.Valid()
    modifies store
    ensures store.Valid()
    ensures item.itemName == "" && item.quantity.None? ==>
      && r == Err(400, NoFieldsDetail)
      && store.docs == old(store.docs)
      && store.nextId == old(store.nextId)
    ensures (item.itemName != "" || item.quantity.Some?) ==>
      var m := FirstMatch(old(store.docs), NameIs(item.itemName));
      if m.Some? then
        var d := old(store.docs)[m.value];
        && r == Ok(UpdatedMessage, None)
        && store.docs == old(store.docs)[m.value := d.(quantity := if item.quantity.Some? then item.quantity else d.quantity)]
        && store.nextId == old(store.nextId)
      else
        && r == Ok(InsertedMessage, None)
        && store.docs == old(store.docs) + [Doc(old(store.nextId), item.itemName, item.quantity, ClientDate(item.date))]
        && store.nextId == old(store.nextId) + 1
    ensures r != Ok(InsertedMessage, None) ==> old(UniqueNames(store.docs)) ==> UniqueNames(store.docs)
  {
    var update := UpdateSet(None, None);
    if item.itemName != "" {
      update := update.(itemName := Some(item.itemName));
    }
    if item.quantity.Some? {
      update := update.(quantity := item.quantity);
    }
    if update == UpdateSet(None, None) {
      return Err(400, NoFieldsDetail);
    }
    var matched := store.UpdateOne(NameIs(item.itemName), update);
    if matched == 0 {
      var _ := store.InsertOne(item.itemName, item.quantity, ClientDate(item.date));
      return Ok(InsertedMessage, None);
    }
    if UniqueNames(old(store.docs)) {
      UniqueNamesByNames(old(store.docs), store.docs);
    }
    r := Ok(UpdatedMessage, None);
  }
}
