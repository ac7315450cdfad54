# timepouch: the sheet/entry state engine in Dafny

This project models the core of timepouch, a time tracker that keeps its
data in a PouchDB document store. Time entries belong to named sheets.
One metadata document holds three things:

- the list of sheets;
- the current sheet;
- the active map `now`, from a sheet name to the id of its open entry.

The model covers these operations:

- `sheet`: select or create a sheet.
- `rmsheet`: remove a sheet, optionally with all its entries.
- `sheets`: list the sheets.
- `in`/`edit`: check in, or rewrite an entry, including the inner `upsert`.
- `out`: check out.
- `query`: filter the entries, then sort them.
- The command queue: calls made before the store opens are queued and
  replayed by `_doQ`.

## How the model is built

- **Store** (`store.dfy`). The store is `Db(meta, entries)`. `meta` is
  the optional metadata document. `entries` maps document ids to entry
  records: `start`, `end`, `note`, `sheet`, last-modified `timestamp`,
  and a type tag `kind`. Every document that is not the metadata is
  in `entries`. Only those tagged `timepouch` are time entries.
- **Replies**. Each operation is a pure function returning
  `Reply<T> = Done(value, writes) | Fail(error)`.
  - `writes` is the ordered list of document writes:
    `PutEntry`, `RemoveEntry` and `PutMeta`. So write order is part of
    each contract: the entry before the metadata, removals before the
    metadata.
  - `Post(db, reply)` is the store after those writes.
  - A failure writes nothing.
- **Crashes**. An uncaught exception in the source becomes
  `Fail(Crashed(...))`, raised before any write. There are two:
  - the unbound `meta_key` on the bootstrap path of `sheet`;
  - using a missing `meta.now` (reading one of its keys, or listing its keys).
- **JavaScript truthiness**. A value that may be a string, `null` or
  `undefined` is an `Option<string>`. It is "set" (`Truthy`) only when it
  is a non-empty string. `a || b` is `Or`.
- **Document ids** (`Id`) are non-empty and never the metadata key.
- **Environment parameters**. Each call gets an `Env` with:
  - the clock reading ("now");
  - the id the store assigns to a new document.

  A query also gets the enumeration order of the store's view.
- **Command queue** (`command_queue.dfy`). A `Gate` holds the `_init`
  flag, the queue `Q`, and the log of started calls. `Run` is what
  starting one call does.

### Quirks of the code that the model keeps

- **`sheet` on a store with no metadata** throws: line 48 names an
  unbound `meta_key`, so the metadata document is never created there.
  As a result:
  - `in` and `out` on such a store fail `no_metadata`;
  - `sheets` fails with the store's not-found error.
- **`sheet` writes the metadata on every call**, including when the
  selection did not change, and it accepts the empty name.
- **`rmsheet` removes whatever name it resolves**, whether or not that
  name is in the sheet list.
- **The check-in guard** refuses when the current sheet has an active
  entry, whichever sheet the new entry is for.
- **Closing an entry deletes its sheet's key** from the active map,
  whatever id that key held.
- **`before`/`after` filters** compare against `start` only.

## Model

| member | source | states |
|---|---|---|
| Sheets.Sheet | timepouch.js:39-68 | On a store without metadata the call throws before writing. Otherwise: the name is listed after the call; it was appended only if absent; it becomes current; the answer is false exactly when the name already was the set current sheet; the active map is unchanged; one metadata write happens even when nothing changed. |
| Sheets.Without | timepouch.js:98-101 | Dropping a name keeps exactly the other names, and no occurrence of it is left. |
| Sheets.WithoutAppend | timepouch.js:98-101 | Dropping a name commutes with concatenation, so the names that stay keep their relative order. |
| Sheets.WithoutAbsent | timepouch.js:98-101 | A list that does not hold the name is left as it is. |
| Sheets.RmSheet | timepouch.js:78-137 | Fails `no metadata` without metadata. Fails `no sheet specified` when no set name resolves; `true` resolves to the current sheet. On success: the name leaves the list and the other names keep their order; the current sheet becomes unset exactly when it was unset or was that name; the active map is untouched. With `entries`, one removal per `query({sheet})` row comes before the metadata write, which is last. |
| Sheets.ApplyRemovals | timepouch.js:114-124 | Performing the removals deletes exactly the ids of the rows and touches nothing else. |
| Sheets.CascadeEffect | timepouch.js:108-135 | `rmsheet(s, true)` deletes exactly the entries on sheet s, which are the documents `query({sheet: s})` returns. Every other document is unchanged, no entry on s remains, and the store ends with the new metadata. |
| Sheets.ListSheets | timepouch.js:144-152 | Fails with the store's not-found error without metadata, and throws when the active map is missing. Otherwise it succeeds, writes nothing and answers the sheet list, the current sheet, and exactly the sheets that are keys of the active map. |
| Text.ContainsIff | timepouch.js:337 | The left-to-right scan finds a note fragment exactly when the fragment occurs at some position of the note. |
| Text.LexLeTotal | timepouch.js:346-350 | Any two strings are comparable under the order of `<` on strings. |
| Text.LexLeTransitive | timepouch.js:346-350 | The string order is transitive. |
| Text.LexLeAntisymmetric | timepouch.js:346-350 | Strings that sort both ways are equal, so ties among strings are only equal strings. |
| Queries.LeTotal | timepouch.js:346-350 | For every sort field, any two entries are comparable. A null date compares as 0. |
| Queries.LeTransitive | timepouch.js:346-350 | For every sort field, the sort order is transitive. |
| Queries.PrependSorted | timepouch.js:352 | A row that may precede every element of a sorted list can be put at its front. |
| Queries.InsertFront | timepouch.js:352 | Inserting a row that precedes the head keeps the list sorted and adds exactly that row. |
| Queries.InsertBehind | timepouch.js:352 | Inserting a row behind the head keeps the list sorted and adds exactly that row. |
| Queries.Insert | timepouch.js:352 | Inserting into a sorted list gives a sorted list holding one more copy of the row. |
| Queries.SortRows | timepouch.js:346-352 | The sort returns a permutation of its input, sorted nondecreasing by the chosen field. |
| Queries.ViewCount | timepouch.js:315-344 | Over an enumeration with no repeats, the filtered view holds each stored, matching entry document exactly once, and nothing else. |
| Queries.Query | timepouch.js:305-355 | Every entry document (type `timepouch`) that satisfies all supplied predicates appears exactly once, and no other row appears. The predicates are: start < before; start >= after; no end when `active`; note contains the text; exact sheet. The rows are sorted by `sort`, which defaults to start. |
| Queries.QueryExact | timepouch.js:321-344 | A row is returned if and only if it is a stored entry document that satisfies the filter. |
| Queries.SheetFilterMatches | timepouch.js:339 | `query({sheet: s})` keeps exactly the entries whose sheet is s. |
| Queries.OpenOnSheetMatches | timepouch.js:335-339 | `query({sheet: s, active: true})` keeps exactly the open entries on sheet s. |
| Queries.NoteFilterMatches | timepouch.js:337 | The note predicate keeps exactly the entries whose note has the text at some position. |
| Entries.Merge | timepouch.js:192-211 | A supplied start, end, note or sheet overwrites the field. An unsupplied one keeps the prior value. The defaults are start = now, end = none, note = empty, sheet = the current sheet or else empty. The type tag is always `timepouch` and the last-modified time is now. |
| Entries.MergeIdempotent | timepouch.js:192-203 | Merging the same options twice at the same time is the same as merging them once. |
| Entries.MergeNothingKeeps | timepouch.js:192-203 | An edit supplying no field keeps the data of an entry that has a start and a sheet. |
| Entries.UpdateActive | timepouch.js:202-226 | The new active map relates to the old one key by key. If the entry moved, the old sheet's key goes only if it held this id. On the entry's sheet the key is removed when the entry has an end, whatever it held, and set to the entry's id otherwise. Every other key keeps its value. |
| Entries.Upsert | timepouch.js:189-232 | The entry is the merge of the prior document and the options. It is written under the given id, or under the store-assigned id for a check-in. It is written before the metadata. The metadata adds the entry's sheet if absent, keeps the current sheet, and updates the active map as above. It throws before writing when a moved entry meets a missing active map. |
| Entries.Edit | timepouch.js:164-234 | Fails `no_metadata`, then `no_sheet_selected` (no sheet given or current), then `already_checked_in` (no id, and the current sheet is active), then not-found for an unknown id. Otherwise it is the upsert, and the written sheet is never empty. |
| Entries.Out | timepouch.js:244-265 | Fails `no_metadata`. Fails `not_checked_in` when no id is given and the target sheet (given, else current) is not active; throws when the active map is missing and no id is given. Otherwise it is `edit` with the id defaulting to the target sheet's active entry and the end defaulting to now. After success the entry has that end and its sheet is not a key of the active map. |
| CommandQueue.Submit | timepouch.js:39-40 | Before initialisation a call is appended to the queue and nothing starts. After it, the call starts at once and the queue is untouched. |
| CommandQueue.DoQ | timepouch.js:26-31 | Draining starts every queued call in arrival order and leaves the queue empty. |
| CommandQueue.Initialize | timepouch.js:12-16 | Opening the store sets the ready flag and drains the queue. |
| CommandQueue.SubmitAllPending | timepouch.js:40 | Calls submitted before initialisation only queue up, in order. |
| CommandQueue.SubmitAllReady | timepouch.js:40 | Calls submitted after initialisation start at once, in order, and nothing is queued. |
| CommandQueue.ArrivalOrder | timepouch.js:10-31 | Whatever is submitted before and after the store opens, calls start in exactly the order they were made, and nothing stays queued. |
| CommandQueue.Run | timepouch.js:29 | Starting a call runs the named method: for `sheet`, `rmsheet`, `sheets`, `in` and `out` the reply has the method's outcome, error and writes, and its value as the answer. A query answers the query's rows. Listing sheets and querying write nothing. `sheet` fails only without metadata. A successful check-in or check-out writes the entry first. |
| Invariants.GrowNoDup | timepouch.js:53-55 | Appending a name only when it is absent introduces no repeat. |
| Invariants.WithoutNoDup | timepouch.js:99-101 | Dropping a name from a list without repeats leaves a list without repeats. |
| Invariants.SheetPreserves | timepouch.js:53-64 | Selecting a sheet keeps the sheet list free of repeats and holding the current sheet. It keeps every active key pointing at the open entry of its sheet. |
| Invariants.EditPreserves | timepouch.js:200-228 | Checking in or editing keeps both invariants: the sheet list stays free of repeats and holds the current sheet, and every active key names a sheet and points at that sheet's open entry. |
| Invariants.OutPreserves | timepouch.js:256-263 | Checking out keeps both invariants. |
| Invariants.RmSheetPreserves | timepouch.js:98-105 | Removing a sheet without its entries keeps both invariants. |
| Invariants.CascadePreservesOthers | timepouch.js:108-135 | Removing a sheet with its entries keeps the sheet list well formed. Every active key other than the removed sheet's still points at its open entry. |
| Invariants.CascadeLeavesStaleKey | timepouch.js:98-135 | If the removed sheet had an active entry, its key stays in the active map and points at a document the cascade deleted. |
| Invariants.ListAfterSheet | timepouch.js:150 | After selecting a sheet, the listing shows it as listed and current. |
| Invariants.ListAfterCheckIn | timepouch.js:223-226 | After a check-in without an end, the entry's sheet is listed, is active, and maps to the new entry. |
| Invariants.ListAfterOut | timepouch.js:223-224 | After a check-out, the entry has an end and its sheet is not listed as active. |
| Invariants.CheckInGuard | timepouch.js:170-180 | A check-in that names a sheet fails exactly when the metadata is missing or the current sheet is active, whichever sheet it names. A failed check-in leaves the store unchanged. |
| Scenarios.SelectABA | test.js:17-45 | Starting from an empty metadata document (on a fresh store the first `sheet` call throws at timepouch.js line 48), selecting a, b, a reports a change each time and ends with sheets [a, b] and a current. |
| Scenarios.ReselectStillWrites | timepouch.js:57-67 | Reselecting the current sheet answers false but still writes the unchanged metadata. |
| Scenarios.CheckInThenOut | timepouch.js:164-265 | A check-in to "work" with note "build" at time 10 makes "work" active on the new entry. A check-out at 20 without an id closes that entry at 20 and clears "work". |
| Scenarios.TwoOpenEntriesOnOneSheet | timepouch.js:178 | Two check-ins to an idle, non-current sheet both succeed and leave two open entries on it; only the second is active. |
| Scenarios.RefusedForIdleSheet | timepouch.js:178 | A check-in to an idle sheet is refused while the current sheet is active. |
| Scenarios.OutByIdClearsOtherEntry | timepouch.js:223-224 | Checking out a closed entry by id clears its sheet's key even though the key held another, still open entry. |
| Scenarios.RemoveKeepsActiveKey | timepouch.js:98-105 | Removing the current sheet while it has an active entry unlists it and clears the current sheet, but keeps its active key. |

## Left out

- `sync`: it is replication to a remote CouchDB through PouchDB, a networked collaborator.
- The `Timepouch` constructor's open error: opening the store is the `Initialize` step and always succeeds.
- Store failures: I/O errors and revision conflicts on `put`/`remove` are not modelled; every write succeeds. The cascade's removals run in parallel in the source and log their errors; here they run one after another and succeed.
- Concurrency: the source only starts calls in order, and their asynchronous store I/O can interleave. The model runs each started call to completion before the next.
- Date parsing (`new Date(str)`): timestamps are taken as already-parsed integers. A supplied timestamp option is always set, so a JavaScript falsy numeric `0` option is not modelled.
- Entries.Edit: a current sheet whose name is an inherited `Object.prototype` property (`constructor`, `toString`, `__proto__`, ...) reads as active in the source's guard, which then refuses the check-in; the model reads such a key as unset and lets the check-in through. Plain JavaScript object lookup is not modelled.
- Entries.Out: for a target sheet named after an inherited `Object.prototype` property, the source passes the `not_checked_in` guard and uses the inherited function as the id; the model reads the key as unset and fails `not_checked_in`.
- Invariants.CheckInGuard: states the guard for own keys of the active map only; the source also refuses when the current sheet is an `Object.prototype` name.
- `now[undefined]` and `now[null]`: JavaScript coerces these keys to the strings "undefined" and "null"; the model reads an unset key as absent.
- Entries.Edit: an id equal to the metadata key is excluded by the `Id` type. In the source, editing the metadata document by id would merge entry fields into it and then hit a revision conflict.
- A metadata document without a `sheets` array, and an entry document without a `note` (on which the note filter would throw), are not represented.
- Queries.Query: states sortedness and exact multiplicity but not the order of ties. The comparator compares Date objects by identity, and the JavaScript sort promised no stability at the time.
- Queries.Query: the `note` option as a regular expression, and the `sheet` option as an array, are not modelled. Sorting is by start, end, note or sheet only.
- Text.LexLe: compares Unicode scalar values. JavaScript compares UTF-16 code units, which order differently above U+FFFF.
- Sheets.ListSheets: answers the active sheets as a set, not in `Object.keys` order.
- The callback-shifting when `rmsheet` is called without `entries`: the model takes `entries` as a boolean.
- tp.js (an older command-line script) and formats.js (text, CSV and TSV rendering) are not part of this model.
