# Grocery list service — a Dafny model of its request handlers

The service keeps one MongoDB collection, `grocery_list`, of grocery items
(name, quantity, date, id) and answers five HTTP routes: `/isAlive`,
`/add_item`, `/get_items`, `/delete_item/{item_name}` and `/update_item`.
This project models the handlers in `app/routes.py` as Dafny methods over an
injected collection object, and proves what each handler does to the
collection and what it answers.

- `wrappers.dfy` — `Option`, standing for Python's `None`.
- `names.dfy` — ASCII lower-casing, case-insensitive name equality, and the
  names that are plain regex literals.
- `object_ids.dfy` — ids as a growing counter; `str(ObjectId)` as 24-digit
  lower-case hexadecimal, with its parse round trip.
- `collection.dfy` — the stored documents (`Doc`), the query filters, the
  specification functions `FirstMatch`, `Without` and `Apply`, and the class
  `Store`. Its fields are the document sequence and the id counter. Its methods
  are the driver calls `find_one`, `find`, `insert_one`, `delete_many` and
  `update_one`.
- `models.dfy` — the `GroceryItem` request body.
- `routes.dfy` — the handlers and their `Response` (`Ok(message, id)` or
  `Err(status, detail)`).
- `scenarios.dfy` — client runs on a fresh collection that match the
  repository's tests, plus two consequences of the update policy.

`Store.Valid()` is the object invariant: every stored id is below the counter,
and ids increase in store order. So no id is ever stored twice or reused.
Every handler keeps it. `UniqueNames` is the intended invariant: no two
names are equal ignoring case. Add, delete and update-on-a-hit keep it.
Update-on-a-miss does not (see below).

## Model

| member | source | states |
|---|---|---|
| Names.Lower | app/routes.py:16 | the lower-case form has the same length and is the character-wise ASCII lower-casing of the name |
| Names.SameIgnoringCase | app/routes.py:16 | the duplicate check's comparison: equal names are equal ignoring case, and names equal ignoring case have the same length |
| Names.SameIgnoringCaseCharwise | app/routes.py:16 | two names match under the `i` option iff they have equal length and agree character by character after lower-casing (both directions) |
| Names.LowerIdempotent | app/routes.py:16 | lower-casing a lower-cased name changes nothing |
| ObjectIds.IdTextRoundTrip | app/routes.py:24 | parsing the text `str(id)` of an id gives the id back |
| ObjectIds.IdTextInjective | app/routes.py:30 | distinct ids have distinct texts |
| ObjectIds.IdTextWidth | app/routes.py:30 | an id that fits the twelve bytes of an ObjectId prints as exactly 24 hexadecimal digits |
| Collection.Matches | app/routes.py:16-57 | the regex filter of add (line 16) selects a document iff its name equals the given one character by character after ASCII lower-casing; the plain filter of delete and update (lines 38, 57) selects on exact equality, and whatever it selects the case-insensitive filter selects too |
| Collection.FirstMatch | app/routes.py:16 | the index returned is the first one the filter matches; None exactly when no document matches |
| Collection.Without | app/routes.py:38 | the result holds exactly the documents of the input the filter does not match, and is no longer than the input |
| Collection.CountMatches | app/routes.py:38-39 | `deleted_count` is the number of documents deleting removes, and it is 0 exactly when no document matches |
| Collection.WithoutAppend | app/routes.py:38 | deleting distributes over concatenation, so the surviving documents keep their relative order |
| Collection.WithoutNothing | app/routes.py:38-40 | when no document matches, deleting leaves the collection unchanged |
| Collection.WithoutPairwise | app/routes.py:38 | any property that holds of every ordered pair of documents still holds after deleting |
| Collection.Store.FindOne | app/routes.py:16 | returns a document iff some stored document matches the filter, and then the first match |
| Collection.Store.Find | app/routes.py:28 | a fresh list of every document in store order, projected to the four fields, with its ObjectId in place |
| Collection.Store.InsertOne | app/routes.py:23 | appends one document under the next id, and the id counter grows by one |
| Collection.Store.DeleteMany | app/routes.py:38 | the collection becomes the non-matching documents in order, and the count is the number removed |
| Collection.Store.UpdateOne | app/routes.py:56-58 | only the first match is changed, by `$set`, and the count is 1; with no match the collection is unchanged and the count is 0 |
| Routes.IsAlive | app/routes.py:9-11 | answers the liveness message |
| Routes.AddItem | app/routes.py:13-24 | if a stored name equals the new name ignoring case: `Err(400, "Item already exists in the grocery list")` and nothing changes; otherwise exactly one document is appended under a fresh id with the given name, the given quantity and the server time `now` (the client's date is ignored); earlier documents are unchanged and the answer is "Item added successfully" with the new id's text; case-insensitive uniqueness is kept |
| Routes.GetItems | app/routes.py:26-31 | one entry per stored document in store order, each with that document's name, quantity and date and its id as text; the texts are pairwise distinct; the collection is not touched |
| Routes.DeleteItem | app/routes.py:33-42 | afterwards no document has exactly that name; every document with another name (including one differing only in case) remains, in order; "Item deleted successfully" iff at least one was removed, otherwise `Err(404, "Item not found")` with nothing changed |
| Routes.UpdateItem | app/routes.py:44-64 | `Err(400, "No fields to update")` with nothing changed exactly when the name is empty and the quantity is None; otherwise the first exact-name match gets the new quantity (name, date and id kept; others unchanged; "Item updated successfully"), or, with no match, the raw payload is appended with the client's date ("Item not found, inserted instead.") |
| Scenarios.AddDuplicateDeleteTwice | app/routes.py:13-42 | add "Apple" succeeds with the first id; add "apple" is refused as a duplicate; delete "Apple" succeeds; deleting it again gives 404 |
| Scenarios.AddThenList | app/routes.py:13-31 | after a successful add, the listing holds exactly one entry with that name, and it carries the given quantity and the server's date |
| Scenarios.EmptyNameUpdate | app/routes.py:47-62 | an update with an empty name and quantity 0 is not refused (it is inserted instead); an empty name with no quantity is refused with 400 |
| Scenarios.UpdateHitAndMiss | tests/test_routes.py:123-141 | an update of a stored name changes its quantity only; an update of an unknown name inserts it with the client's date |
| Scenarios.UpdateMissBreaksUniqueness | app/routes.py:56-62 | with "Apple" stored, updating "apple" inserts a second document, and the names are no longer unique ignoring case |

## Where the code departs from the intended behaviour

The model follows the code in each case.

- Add checks only that the name is a string. It accepts an empty or
  whitespace-only name. There is no separate validator.
- On an update miss the code inserts the payload as sent, including the
  client's `date` (and, in the model, where the quantity is optional, a
  missing quantity). The stored date is then not
  server-assigned. The model takes this upsert-on-miss path.
- That insert skips add's case-insensitive check. It can leave two names that
  differ only in case (`Scenarios.UpdateMissBreaksUniqueness`). So the
  uniqueness invariant holds only for add, delete and update-on-a-hit.
- The test at `tests/test_routes.py:110-120` expects 400 for the payload
  `{"item_name": "", "quantity": 0}`. The code refuses only when the name is
  empty and the quantity is `None`. A quantity of 0 is kept, so the update goes
  ahead (`Scenarios.EmptyNameUpdate`).
- Update's `$set` also writes `item_name`, but only to the value the match
  already has, so in effect only the quantity changes. With an empty name,
  update matches a document whose name is empty.

## Left out

- FastAPI routing, `async`, response models and HTTP plumbing: each handler is
  a method that returns a `Response`.
- Pydantic parsing and coercion: the body is an already-typed `GroceryItem`.
  `app/models.py:7` declares the quantity a required `int`, so through HTTP the
  "No fields to update" branch is unreachable. The model keeps the quantity
  optional so that the handler's own `is not None` test has both outcomes.
- The MongoDB client, its configuration and store failures: the collection is
  the in-memory `Store`. A failing store call is not modelled.
- ObjectId generation: ids are a counter. Real ObjectIds carry a timestamp and
  random bytes. The model keeps only freshness and the hexadecimal text.
- `datetime.utcnow()`: the server time is the parameter `now` of `AddItem`.
- Routes.AddItem: requires the new name to contain no regex metacharacters
  (`IsRegexLiteral`). The code puts the name into `^...$` without escaping, so
  such characters change what matches, or make the query fail: an unbalanced
  `(` or `[`, as in "Milk (", is an invalid pattern, and the store rejects it.
  add_item then ends in a server error instead of an answer. The model also leaves out two more
  cases of the regex check: PCRE's `$` matches before a trailing newline of a
  stored name, and Unicode case folding; case folding here is ASCII only.
- The `item_name == None` test at `app/routes.py:35-36`: a path parameter is
  always a string, so that branch is dead and is not modelled.
- Concurrency: two adds of the same name can race between `find_one` and
  `insert_one`. The model is sequential.
- ObjectIds.IdTextWidth: states the 24-digit width only for ids below 16^24,
  the range of a 12-byte ObjectId. Larger counter values print longer.
- The test harness (`tests/test_routes.py:1-25`): its mocks are replaced by the
  model collection. Its cases appear as the methods in `scenarios.dfy`.
