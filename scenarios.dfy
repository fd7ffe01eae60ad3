/**
 * Client runs of the handlers on a fresh collection: the scenarios the
 * repository's tests describe, and two consequences of the update policy.
 */
module Scenarios {
  import opened Wrappers
  import opened Names
  import opened ObjectIds
  import opened Collection
  import opened Models
  import opened Routes

  /** Add "Apple", add "apple" (a duplicate ignoring case), delete "Apple",
      delete "Apple" again. */
  method AddDuplicateDeleteTwice() returns (added: Response, duplicate: Response, deleted: Response, again: Response)
    ensures added == Ok(AddedMessage, Some(IdText(0)))
    ensures duplicate == Err(400, DuplicateDetail)
    ensures deleted == Ok(DeletedMessage, None)
    ensures again == Err(404, NotFoundDetail)
  {
    var store := new Store();
    AppleFacts();
    added := AddItem(store, GroceryItem("Apple", Some(10), None), 100);
    assert store.docs == [Doc(0, "Apple", Some(10), Some(ServerTime(100)))];
    assert NameTaken(store.docs, "apple");
    duplicate := AddItem(store, GroceryItem("apple", Some(3), None), 200);
    deleted := DeleteItem(store, "Apple");
    again := DeleteItem(store, "Apple");
  }

  lemma AppleFacts()
    ensures IsRegexLiteral("Apple") && IsRegexLiteral("apple")
    ensures SameIgnoringCase("Apple", "apple")
  {
  }

  /** An added item shows up exactly once in the listing, with its name,
      quantity and the server's date. */
  method AddThenList(store: Store, item: GroceryItem, now: int) returns (r: Response, items: seq<Entry>)
    requires store.Valid() && IsRegexLiteral(item.itemName)
    modifies store
    ensures r.Ok? ==>
      && |items| > 0
      && var last := items[|items| - 1];
      && last.itemName == item.itemName && last.quantity == item.quantity
      && last.date == Some(ServerTime(now))
      && forall i :: 0 <= i < |items| - 1 ==> items[i].itemName != item.itemName
  {
    ghost var before := store.docs;
    r := AddItem(store, item, now);
    items := GetItems(store);
    if r.Ok? {
      forall i | 0 <= i < |items| - 1 ensures items[i].itemName != item.itemName {
        assert store.docs[i] == before[i];
        assert !SameIgnoringCase(before[i].itemName, item.itemName);
      }
    }
  }

  /** A payload with an empty name and quantity 0 still has a field to set,
      so it is not refused; on an empty collection it is inserted. Only an
      empty name with no quantity is refused. */
  method EmptyNameUpdate() returns (zero: Response, none: Response)
    ensures zero == Ok(InsertedMessage, None)
    ensures none == Err(400, NoFieldsDetail)
  {
    var store := new Store();
    zero := UpdateItem(store, GroceryItem("", Some(0), None));
    none := UpdateItem(store, GroceryItem("", None, None));
  }

  /** Update of a stored name changes its quantity only; update of an
      unknown name inserts it, with the client's date. */
  method UpdateHitAndMiss() returns (hit: Response, miss: Response, docs: seq<Doc>)
    ensures hit == Ok(UpdatedMessage, None)
    ensures miss == Ok(InsertedMessage, None)
    ensures docs == [Doc(0, "Lemon", Some(15), Some(ServerTime(7))),
                     Doc(1, "New Item", Some(5), Some(ClientText("today")))]
  {
    var store := new Store();
    assert IsRegexLiteral("Lemon");
    var added := AddItem(store, GroceryItem("Lemon", Some(3), Some("ignored")), 7);
    assert store.docs == [Doc(0, "Lemon", Some(3), Some(ServerTime(7)))];
    assert FirstMatch(store.docs, NameIs("Lemon")) == Some(0);
    hit := UpdateItem(store, GroceryItem("Lemon", Some(15), None));
    assert store.docs == [Doc(0, "Lemon", Some(15), Some(ServerTime(7)))];
    assert !Matches(NameIs("New Item"), store.docs[0]);
    miss := UpdateItem(store, GroceryItem("New Item", Some(5), Some("today")));
    docs := store.docs;
  }

  /** The insert on an update miss skips add's case-insensitive check, so
      it can store two names that differ only in case. */
  method UpdateMissBreaksUniqueness() returns (r: Response, docs: seq<Doc>)
    ensures r == Ok(InsertedMessage, None)
    ensures |docs| == 2 && !UniqueNames(docs)
  {
    var store := new Store();
    var added := AddItem(store, GroceryItem("Apple", Some(10), None), 0);
    r := UpdateItem(store, GroceryItem("apple", Some(3), None));
    docs := store.docs;
    assert SameIgnoringCase(docs[0].itemName, docs[1].itemName);
    assert !DistinctNames(docs[0], docs[1]);
  }
}
