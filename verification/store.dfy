/** The document store as the engine sees it: one metadata document, entry
    documents keyed by id, and the ordered list of writes an operation
    performs. Storage and revision-conflict failures of the store are not
    part of this model: every write succeeds. */
module Store {
  import opened Base

  /** The type tag that marks a document as a time entry. */
  const EntryKind: string := "timepouch"

  /** A document other than the metadata. `start`, `end` and `timestamp`
      may be missing on documents the engine did not write; a missing
      `note` or `sheet` is represented by the empty string, which the
      engine treats the same way. */
  datatype Entry = Entry(
    start: Option<Time>,
    end: Option<Time>,
    note: string,
    sheet: string,
    timestamp: Option<Time>,
    kind: string)

  /** The metadata document: the list of sheets, the current sheet, and
      the active map `now` from sheet name to the id of its open entry.
      `now` is missing on a metadata document that never had a check-in
      written through the engine. */
  datatype Meta = Meta(
    sheets: seq<string>,
    current: Option<string>,
    now: Option<map<string, Id>>)

  /** A document together with its id: a row of the store's view, or an
      entry as written. */
  datatype Row = Row(id: Id, entry: Entry)

  datatype Db = Db(meta: Option<Meta>, entries: map<Id, Entry>)

  datatype Write =
    | PutMeta(meta: Meta)
    | PutEntry(id: Id, entry: Entry)
    | RemoveEntry(id: Id)

  /** Why an uncaught exception ends an operation before it writes. */
  datatype Crash =
    | UnboundMetaKey   // the bare `meta_key` on the bootstrap path
    | NowMissing       // reading a key of a missing `meta.now`

  datatype Error =
    | NoMetadata
    | NoSheetSpecified
    | NoSheetSelected
    | AlreadyCheckedIn
    | NotCheckedIn
    | NotFound(key: string)
    | Crashed(cause: Crash)

  /** What an operation hands its callback: a value and the writes made,
      in order, or an error after which nothing was written. */
  datatype Reply<+T> = Done(value: T, writes: seq<Write>) | Fail(error: Error)

  function Apply(db: Db, w: Write): Db {
    match w
    case PutMeta(m) => db.(meta := Some(m))
    case PutEntry(id, e) => db.(entries := db.entries[id := e])
    case RemoveEntry(id) => db.(entries := db.entries - {id})
  }

  /** The store after performing `ws` one after another. */
  function ApplyAll(db: Db, ws: seq<Write>): Db
    decreases |ws|
  {
    if ws == [] then db else ApplyAll(Apply(db, ws[0]), ws[1..])
  }

  /** The store after an operation's reply has been fully written. */
  function Post<T>(db: Db, r: Reply<T>): Db {
    if r.Done? then ApplyAll(db, r.writes) else db
  }

  /** The active map, reading a missing one as empty. */
  function NowOf(m: Meta): map<string, Id> {
    if m.now.Some? then m.now.value else map[]
  }

  /** Performing two write lists in a row is performing their
      concatenation. */
  lemma {:induction false} ApplyAllAppend(db: Db, a: seq<Write>, b: seq<Write>)
    ensures ApplyAll(db, a + b) == ApplyAll(ApplyAll(db, a), b)
    decreases |a|
  {
    if a == [] {
      assert a + b == b;
    } else {
      assert (a + b)[1..] == a[1..] + b;
      ApplyAllAppend(Apply(db, a[0]), a[1..], b);
    }
  }

  /** When the last write is the metadata, the store ends with that
      metadata whatever came before it. */
  lemma {:induction false} ApplyAllLastMeta(db: Db, ws: seq<Write>)
    requires ws != [] && ws[|ws| - 1].PutMeta?
    ensures ApplyAll(db, ws).meta == Some(ws[|ws| - 1].meta)
    decreases |ws|
  {
    if |ws| > 1 {
      ApplyAllLastMeta(Apply(db, ws[0]), ws[1..]);
    }
  }
}
