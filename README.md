# Event repository — a Dafny model

`repository.js` is the data-access layer of a small events service. It works on one
document collection named `"Events"` in a cloud document store and offers four
operations: list the events (`getEvents`), add an event (`addEvent`), and add or
remove a like (`addLike`, `removeLike`, both through `changeLikes`). When the collection
is empty or cannot be read, the listing is the fixed two-event constant `mockEvents`.

The model replaces the store client with an in-memory collection and proves what the
repository does on it:

- `wrappers.dfy` (module `Wrappers`): `Option` (JavaScript's `undefined`) and `Result`
  (a failed store call).
- `store.dfy` (module `DocumentStore`): property values, records, documents, and the class
  `Collection`, an ordered sequence of `(id, record)` pairs with the four store calls the
  repository makes (`get`, `add`, `doc(id).get`, `doc(id).update`). Each call takes a
  `fault` flag that makes it fail. A new document gets a fresh non-empty id, used by no
  other document, and goes to the end of the sequence.
- `repository.dfy` (module `Repository`): the repository's operations as methods over a
  `Collection`, the functions that specify them (`Listing`, `Added`, `Changed`, `Bumped`),
  the lemmas about those functions, and a small state machine (`Step`, `Run`). The state
  machine shows that any run of calls keeps document ids distinct and every `likes`
  counter non-negative.

A record is `Event(props, likes)`. `likes` is an optional integer. `props` holds every
other property and never has a `likes` key.

Two details of the code that the model keeps:
- The listing sets `_id` to the document id (repository.js:34). A stored `id` property is
  kept as it is, not overwritten (`StoredIdKept`). The comments at repository.js:63 and
  repository.js:90 say `__id`, but the code sets `_id`.
- When `changeLikes` fails, its `.catch` only logs, so the caller gets no event list
  (`None`), not the fallback.

## Model

| member | source | states |
|---|---|---|
| `Repository.MockEventsAreTheSamples` | repository.js:15-20 | the fallback is exactly two events with ids 1 and 2, the given titles, descriptions and locations, and likes 0 |
| `Repository.WithId` | repository.js:32-34 | a listed entry is the stored record with `_id` set to the document id; `likes` and every other property (a stored `id` too) are unchanged |
| `Repository.TaggedAt` | repository.js:29-37 | building the list gives one entry per document, and entry k comes from document k |
| `Repository.ListingOfDocuments` | repository.js:28-38 | a non-empty collection is listed one entry per document, in order; each entry is that document's data plus `_id`, and nothing else changes |
| `Repository.StoredIdKept` | repository.js:34 | a stored `id` property comes through the listing unchanged, because only `_id` is written |
| `Repository.GetEvents` | repository.js:25-47 | never fails: a read error or an empty collection gives `mockEvents`; otherwise the result is the listing of the collection's documents |
| `Repository.NewRecord` | repository.js:56-61 | the new record has exactly the properties title, description and location, copied from the request body (undefined when absent), and likes 0 |
| `Repository.NewRecordIgnoresOtherFields` | repository.js:53-61 | two bodies that agree on title, description and location give the same record, so any `likes` or `id` in the input is ignored |
| `Repository.AddedIsListed` | repository.js:62-65 | after an insert, the listing starts with the old entries and ends with the new record, tagged with its non-empty store-assigned id and with likes 0 |
| `Repository.AddEvent` | repository.js:52-66 | one new document with the new record is appended and no existing document changes; a failed insert is passed on to the caller with the collection unchanged; otherwise the result is the listing after the insert |
| `Repository.Bumped` | repository.js:75-86 | a missing `likes` counts as 0; an increment adds 1; a decrement subtracts 1 only while the count is > 0; the other properties are kept |
| `Repository.Changed` | repository.js:73-89 | a change succeeds exactly when a document has the id; only that document is rewritten, and only its `likes`; ids and every other document are unchanged |
| `Repository.ChangeIsListed` | repository.js:88-91 | the listing after a like or unlike shows the new count at that document's place and every other entry as before |
| `Repository.LikeThenUnlike` | repository.js:81-86 | a like followed by an unlike brings a non-negative count back to where it was (for the program's doubles, only below 2^53) |
| `Repository.UnlikeFloorsAtZero` | repository.js:77-86 | an unlike never takes a non-negative count below 0, and a count of 0 or a missing count stays 0 |
| `Repository.ChangeLikes` | repository.js:71-95 | a failed fetch, an unknown id or a failed update is caught: the collection is unchanged and the result is `None`; otherwise the record is rewritten as `Changed` says and the result is the new listing |
| `Repository.AddLike` | repository.js:97-100 | `changeLikes` with increment: the new count is the old count plus 1 (for the program's doubles, only below 2^53) |
| `Repository.RemoveLike` | repository.js:102-105 | `changeLikes` with decrement; non-negative counters before the call stay non-negative after it |
| `Repository.AddKeepsInvariant` | repository.js:56-62 | an insert keeps ids distinct and counters non-negative, because the new record starts at 0 |
| `Repository.ChangeKeepsInvariant` | repository.js:77-89 | a like or unlike keeps ids distinct and counters non-negative |
| `Repository.RunKeepsInvariant` | repository.js:108-116 | any sequence of the exposed operations keeps ids distinct and every counter non-negative |
| `Repository.ListedLikesNeverNegative` | repository.js:25-105 | starting from an empty collection, no listing ever shows a negative `likes` |
| `DocumentStore.IndexOf` | repository.js:73 | finds the first document with the id, or reports that no document has it |
| `DocumentStore.Lookup` | repository.js:73-75 | `doc(id).get().data()` is defined exactly when a document has the id, and is that document's record |
| `DocumentStore.FreshId` | repository.js:62 | the id the store assigns to a new document is non-empty and used by no existing document |
| `DocumentStore.Collection.Get` | repository.js:26 | `collection.get()` yields all documents in order, or fails |
| `DocumentStore.Collection.Add` | repository.js:62 | `add` appends the record under a fresh id and returns that id, or fails and changes nothing |
| `DocumentStore.Collection.Read` | repository.js:73 | `doc(id).get()` yields the record or `undefined`, or fails |
| `DocumentStore.Collection.Update` | repository.js:88-89 | `update` overwrites the record of an existing document; with an unknown id or a fault it fails and changes nothing |

## Left out

- Construction of the store client and the `GOOGLE_CLOUD_PROJECT` lookup (repository.js:4-11): these are an external library and configuration. The `Collection` class stands in for them.
- Logging (`console.log`, `console.error`): it is I/O and has no effect on results.
- Asynchronous execution and promise chaining: each operation is one sequential method that changes the store and then reads it again.
- The lost-update race between the read and the write in `changeLikes` when callers run concurrently: concurrency is not modelled.
- How the store picks document ids and orders documents: the model makes one fixed choice (`FreshId`, a run of `x` one character longer than the longest existing id), and new documents go at the end of the sequence. The proofs use only `FreshId`'s contract (non-empty, used by no document), so they hold for any such choice.
- JavaScript truthiness of `likes` beyond "missing or 0" (strings, `NaN`, `false`): `likes` is an optional integer.
- Floating-point counters: in the model, `likes` is an unbounded integer. In the program it is a JavaScript number (a double), which holds every integer exactly up to 2^53. `el.likes++` (repository.js:82) is exact below 2^53 and `el.likes--` (repository.js:85) up to and including 2^53. Past that, the result is rounded to the nearest double (ties to even), so the count may stay the same or change by 2.
- Bumped: the "+1" is exact only for counts below 2^53, and the "-1" only up to and including 2^53, because the model does not round to a double.
- AddLike: the new count is the old count plus 1 only for counts below 2^53; at 2^53 and above the program rounds the sum to the nearest double, which may leave the count unchanged or add 2.
- LikeThenUnlike: the count is restored only for counts below 2^53; the program turns 2^53 into 2^53 - 1.
- Document ids that are not plain keys (`""`, `undefined`, or an id with `/` such as `"a/b"`): the model treats every string as a plain document key. In the program, `doc(id)` (repository.js:73) throws for such an id before the `.catch` at repository.js:94 is attached. The error then reaches the caller of `addLike` or `removeLike` instead of resolving with no result, and an id like `"a/b/c"` names a document in a subcollection.
- ChangeLikes: for an id that is not a plain document key, the model returns `None` with the collection unchanged, where the program rejects with the error from `doc(id)`.
- The store rejecting `undefined` property values: a property missing from the request body is stored as `Undefined`. A failing insert is modelled by the `addFault` flag instead.
- Property names as field paths: the model treats every property name as a plain name. The store client's `update(record)` (repository.js:88-89) reads each top-level key as a dot-separated field path. When every name is a plain field name, writing back the whole record just read is the same as an overwrite, and that is all the model covers.
- Collection.Update: a property name with `.` (such as `"a.b"`) is written by the program to the nested field `a.b`, so the stored record differs from the one read back. A name with `*`, `~`, `/`, `[`, `]` or `..`, or one that starts or ends with `.`, makes the program's `update` throw. The model overwrites the record in both cases.
- ChangeLikes: for a record with a property name that `update` rejects, the program's throw happens inside the `.then` at repository.js:88 and is caught at repository.js:94. The program then resolves with no result and leaves the document unchanged, where the model returns the new listing with the count changed. For a name with `.`, the program stores a nested field that the model does not represent.
- The module wiring in `eventRepository` (repository.js:108-116) and the HTTP request, apart from the three `req.body` properties.
