/**
 * The `grocery_list` collection as the routes use it: an ordered sequence of
 * documents in the store's natural order, with the five driver calls
 * (find_one, find, insert_one, delete_many, update_one) given their plain
 * meaning on that sequence. Ids come from a counter that only grows.
 */
module Collection {
  import opened Wrappers
  import opened Names
  import opened ObjectIds

  /** A stored `date`: the server's clock (add) or a client's text (the
      raw payload that update inserts on a miss). */
  datatype Stamp = ServerTime(instant: int) | ClientText(text: string)

  /** One stored document: `_id`, `item_name`, `quantity`, `date`. */
  datatype Doc = Doc(id: nat, itemName: string, quantity: Option<int>, date: Option<Stamp>)

  /** The `_id` of a listed document: the ObjectId as read, or its text. */
  datatype IdValue = ObjectId(oid: nat) | IdString(text: string)

  /** One document as `find` returns it under the four-field projection. */
  datatype Entry = Entry(id: IdValue, itemName: string, quantity: Option<int>, date: Option<Stamp>)

  /** The two query filters the routes send: `{"item_name": n}` and
      `{"item_name": {"$regex": "^n$", "$options": "i"}}`. */
  datatype Filter = NameIs(name: string) | NameLike(name: string)

  /** A `$set` document: the fields present in it are overwritten. */
  datatype UpdateSet = UpdateSet(itemName: Option<string>, quantity: Option<int>)

  /** Whether a filter selects a document: exact equality of names for
      `NameIs`, ASCII case-insensitive equality for `NameLike`. Whatever an
      exact filter selects, the case-insensitive one selects too. */
  predicate Matches(f: Filter, d: Doc)
    ensures f.NameIs? && Matches(f, d) ==> SameIgnoringCase(d.itemName, f.name)
    ensures f.NameLike? ==> (Matches(f, d) <==>
      |d.itemName| == |f.name| &&
      forall i :: 0 <= i < |f.name| ==> LowerChar(d.itemName[i]) == LowerChar(f.name[i]))
  {
    SameIgnoringCaseCharwise(d.itemName, f.name);
    match f
    case NameIs(n) => d.itemName == n
    case NameLike(n) => SameIgnoringCase(d.itemName, n)
  }

  /** The index of the first document the filter matches, if any. */
  function FirstMatch(s: seq<Doc>, f: Filter): (r: Option<nat>)
    ensures r.Some? ==> r.value < |s| && Matches(f, s[r.value])
    ensures r.Some? ==> forall j :: 0 <= j < r.value ==> !Matches(f, s[j])
    ensures r.None? <==> forall j :: 0 <= j < |s| ==> !Matches(f, s[j])
  {
    if s == [] then None
    else if Matches(f, s[0]) then Some(0)
    else match FirstMatch(s[1..], f)
      case Some(k) => Some(k + 1)
      case None => None
  }

  /** The documents the filter does not match, in their original order. */
  function Without(s: seq<Doc>, f: Filter): (r: seq<Doc>)
    ensures |r| <= |s|
    ensures forall d :: d in r <==> d in s && !Matches(f, d)
  {
    if s == [] then []
    else (if Matches(f, s[0]) then [] else [s[0]]) + Without(s[1..], f)
  }

  /** `deleted_count`: the number of documents the filter matches. It is
      what deleting removes, and it is 0 exactly when nothing matches. */
  function CountMatches(s: seq<Doc>, f: Filter): (r: nat)
    ensures r == |s| - |Without(s, f)|
    ensures r == 0 <==> FirstMatch(s, f).None?
  {
    if s == [] then 0
    else (if Matches(f, s[0]) then 1 else 0) + CountMatches(s[1..], f)
  }

  /** A document under the four-field projection of `get_items`. */
  function Projected(d: Doc): Entry {
    Entry(ObjectId(d.id), d.itemName, d.quantity, d.date)
  }

  /** `$set`: overwrite the fields the update set carries. */
  function Apply(d: Doc, u: UpdateSet): Doc {
    var named := if u.itemName.Some? then d.(itemName := u.itemName.value) else d;
    if u.quantity.Some? then named.(quantity := u.quantity) else named
  }

  /** `P` holds of every pair of documents in store order. */
  ghost predicate Pairwise(s: seq<Doc>, P: (Doc, Doc) -> bool) {
    forall i, j :: 0 <= i < j < |s| ==> P(s[i], s[j])
  }

  predicate IdBefore(a: Doc, b: Doc) {
    a.id < b.id
  }

  predicate DistinctNames(a: Doc, b: Doc) {
    !SameIgnoringCase(a.itemName, b.itemName)
  }

  /** No two stored names are equal ignoring case. */
  ghost predicate UniqueNames(s: seq<Doc>) {
    Pairwise(s, DistinctNames)
  }

  /** Deleting distributes over concatenation: it removes documents and
      keeps the order of the rest. */
  lemma {:induction false} WithoutAppend(a: seq<Doc>, b: seq<Doc>, f: Filter)
    ensures Without(a + b, f) == Without(a, f) + Without(b, f)
  {
    if a == [] {
      assert a + b == b;
    } else {
      assert (a + b)[1..] == a[1..] + b;
      WithoutAppend(a[1..], b, f);
    }
  }

  /** When nothing matches, deleting leaves the sequence unchanged. */
  lemma {:induction false} WithoutNothing(s: seq<Doc>, f: Filter)
    ensures FirstMatch(s, f).None? ==> Without(s, f) == s
  {
    if s != [] {
      WithoutNothing(s[1..], f);
      if !Matches(f, s[0]) {
        assert FirstMatch(s, f).None? <==> FirstMatch(s[1..], f).None?;
      }
    }
  }

  /** Deleting keeps every pairwise property of the store order. */
  lemma {:induction false} WithoutPairwise(s: seq<Doc>, f: Filter, P: (Doc, Doc) -> bool)
    requires Pairwise(s, P)
    ensures Pairwise(Without(s, f), P)
  {
    if s != [] {
      var t := s[1..];
      assert Pairwise(t, P) by {
        forall i, j | 0 <= i < j < |t| ensures P(t[i], t[j]) {
          assert t[i] == s[i + 1] && t[j] == s[j + 1];
        }
      }
      WithoutPairwise(t, f, P);
      var r := Without(t, f);
      if !Matches(f, s[0]) {
        var w := [s[0]] + r;
        forall i, j | 0 <= i < j < |w| ensures P(w[i], w[j]) {
          if i == 0 {
            assert w[j] == r[j - 1] && r[j - 1] in t;
            var k :| 0 <= k < |t| && t[k] == r[j - 1];
            assert s[k + 1] == t[k];
          } else {
            assert w[i] == r[i - 1] && w[j] == r[j - 1];
          }
        }
      }
    }
  }

  /** Uniqueness of names depends on the names alone. */
  lemma UniqueNamesByNames(s: seq<Doc>, t: seq<Doc>)
    requires UniqueNames(s)
    requires |s| == |t| && forall i :: 0 <= i < |s| ==> s[i].itemName == t[i].itemName
    ensures UniqueNames(t)
  {
  }

  /** Appending a document keeps a pairwise property when the new document
      stands in it with every earlier one. */
  lemma PairwiseAppend(s: seq<Doc>, d: Doc, P: (Doc, Doc) -> bool)
    requires Pairwise(s, P)
    requires forall i :: 0 <= i < |s| ==> P(s[i], d)
    ensures Pairwise(s + [d], P)
  {
  }

  class Store {
    /** The documents, in the store's natural order. */
    var docs: seq<Doc>
    /** The next id the store hands out. */
    var nextId: nat

    /** Every id was handed out before and ids grow in store order, so no
        id is stored twice. */
    ghost predicate Valid()
      reads this
    {
      && (forall d :: d in docs ==> d.id < nextId)
      && Pairwise(docs, IdBefore)
    }

    constructor ()
      ensures Valid() && docs == [] && nextId == 0
    {
      docs := [];
      nextId := 0;
    }

    /** `find_one(filter)`: the first matching document, or None. */
    method FindOne(f: Filter) returns (r: Option<Doc>)
      ensures r.Some? <==> exists i :: 0 <= i < |docs| && Matches(f, docs[i])
      ensures r.Some? ==> r.value == docs[FirstMatch(docs, f).value]
    {
      var k := FirstMatch(docs, f);
      r := if k.Some? then Some(docs[k.value]) else None;
    }

    /** `list(find({}, projection))`: every document, in order, with its
        ObjectId still in place. */
    method Find() returns (a: array<Entry>)
      ensures fresh(a) && a.Length == |docs|
      ensures forall i :: 0 <= i < |docs| ==>
        a[i] == Entry(ObjectId(docs[i].id), docs[i].itemName, docs[i].quantity, docs[i].date)
    {
      a := new Entry[|docs|](i reads this requires 0 <= i < |docs| => Projected(docs[i]));
    }

    /** `insert_one(doc)`: append the document under a fresh id. */
    method InsertOne(itemName: string, quantity: Option<int>, date: Option<Stamp>) returns (id: nat)
      requires Valid()
      modifies this
      ensures Valid()
      ensures id == old(nextId) && nextId == old(nextId) + 1
      ensures docs == old(docs) + [Doc(id, itemName, quantity, date)]
    {
      id := nextId;
      var d := Doc(id, itemName, quantity, date);
      PairwiseAppend(docs, d, IdBefore);
      docs := docs + [d];
      nextId := nextId + 1;
    }

    /** `delete_many(filter)`: remove every matching document and report
        how many went. */
    method DeleteMany(f: Filter) returns (deleted: nat)
      requires Valid()
      modifies this
      ensures Valid() && nextId == old(nextId)
      ensures docs == Without(old(docs), f)
      ensures deleted == CountMatches(old(docs), f)
    {
      deleted := CountMatches(docs, f);
      WithoutPairwise(docs, f, IdBefore);
      docs := Without(docs, f);
    }

    /** `update_one(filter, {"$set": u})`: overwrite the fields of the first
        matching document; report whether one matched. */
    method UpdateOne(f: Filter, u: UpdateSet) returns (matched: nat)
      requires Valid()
      modifies this
      ensures Valid() && nextId == old(nextId)
      ensures var m := FirstMatch(old(docs), f);
        if m.Some? then matched == 1 && docs == old(docs)[m.value := Apply(old(docs)[m.value], u)]
        else matched == 0 && docs == old(docs)
    {
      var k := FirstMatch(docs, f);
      if k.Some? {
        var i := k.value;
        var s := docs[i := Apply(docs[i], u)];
        assert forall j :: 0 <= j < |s| ==> s[j].id == docs[j].id;
        docs := s;
        matched := 1;
      } else {
        matched := 0;
      }
    }
  }
}
