/** The check-in / edit / check-out engine. `in` and `edit` are one
    operation: without an id it creates an entry (a check-in), with an id it
    rewrites that entry. `out` resolves the open entry and delegates to
    `edit`. Each success writes the entry first and the metadata second. */
module Entries {
  import opened Base
  import opened Store

  /** The options of `in`/`edit`/`out`. Timestamps are already parsed; an
      unset option is one the caller did not supply. */
  datatype Options = Options(
    start: Option<Time>,
    end: Option<Time>,
    note: Option<string>,
    sheet: Option<string>,
    id: Option<Id>)

  /** What the environment supplies to one call: the clock reading, and the
      id the store assigns if the call creates a document. */
  datatype Env = Env(now: Time, freshId: Id)

  /** The empty object a check-in starts from. */
  const Blank: Entry := Entry(None, None, "", "", None, "")

  /** The entry an edit starts from: the stored one, or the empty object. */
  function Prior(db: Db, opts: Options): Entry
    requires opts.id.Some? ==> opts.id.value in db.entries
  {
    if opts.id.Some? then db.entries[opts.id.value] else Blank
  }

  /** The field merge of `upsert`: a supplied field overwrites, an unset
      one keeps the prior value, and a field set by neither takes its
      default (start: now, end: none, note: empty, sheet: the current
      sheet, else empty). The type tag and last-modified time are always
      written. */
  function Merge(prior: Entry, opts: Options, current: Option<string>, now: Time): (e: Entry)
    ensures opts.start.Some? ==> e.start == opts.start
    ensures opts.start.None? && prior.start.Some? ==> e.start == prior.start
    ensures opts.start.None? && prior.start.None? ==> e.start == Some(now)
    ensures opts.end.Some? ==> e.end == opts.end
    ensures opts.end.None? ==> e.end == prior.end
    ensures Truthy(opts.note) ==> e.note == opts.note.value
    ensures !Truthy(opts.note) ==> e.note == prior.note
    ensures Truthy(opts.sheet) ==> e.sheet == opts.sheet.value
    ensures !Truthy(opts.sheet) && prior.sheet != "" ==> e.sheet == prior.sheet
    ensures !Truthy(opts.sheet) && prior.sheet == "" && Truthy(current) ==> e.sheet == current.value
    ensures !Truthy(opts.sheet) && prior.sheet == "" && !Truthy(current) ==> e.sheet == ""
    ensures e.timestamp == Some(now) && e.kind == EntryKind
  {
    Entry(
      start := if opts.start.Some? then opts.start
               else if prior.start.Some? then prior.start
               else Some(now),
      end := if opts.end.Some? then opts.end else prior.end,
      note := if Truthy(opts.note) then opts.note.value else prior.note,
      sheet := if Truthy(opts.sheet) then opts.sheet.value
               else if prior.sheet != "" then prior.sheet
               else if Truthy(current) then current.value
               else "",
      timestamp := Some(now),
      kind := EntryKind)
  }

  /** Applying the same options again at the same time changes nothing
      more: the merge is idempotent. */
  lemma MergeIdempotent(prior: Entry, opts: Options, current: Option<string>, now: Time)
    ensures Merge(Merge(prior, opts, current, now), opts, current, now) == Merge(prior, opts, current, now)
  {
  }

  /** An edit that supplies no field keeps the data of an entry that has a
      start and a sheet; only the type tag and last-modified time change. */
  lemma MergeNothingKeeps(prior: Entry, current: Option<string>, now: Time)
    requires prior.start.Some? && prior.sheet != ""
    ensures Merge(prior, Options(None, None, None, None, None), current, now)
         == prior.(timestamp := Some(now), kind := EntryKind)
  {
  }

  /** The guard of a check-in: no id was given and the CURRENT sheet (not
      the sheet the entry is for) has an active entry. */
  predicate AlreadyIn(m: Meta, opts: Options) {
    opts.id.None? && m.now.Some? && Lookup(m.now.value, m.current).Some?
  }

  /** The sheet an edited entry moved away from, if it moved: only an
      entry loaded by id, with a set sheet, can move. */
  function MovedFrom(opts: Options, prior: Entry, e: Entry): Option<string> {
    if opts.id.Some? && prior.sheet != "" && e.sheet != prior.sheet then Some(prior.sheet) else None
  }

  /** Relates the active map before and after an edit key by key. */
  ghost predicate ActiveUpdated(before: map<string, Id>, after: map<string, Id>,
                                from: Option<string>, e: Entry, id: Id)
  {
    && (e.end.None? ==> e.sheet in after && after[e.sheet] == id)
    && (e.end.Some? ==> e.sheet !in after)
    && (forall k :: k != e.sheet ==>
          (k in after <==> k in before && !(from == Some(k) && before[k] == id)))
    && (forall k :: k in after && k != e.sheet ==> k in before && after[k] == before[k])
  }

  /** The active map after an entry with id `id` was written as `e`: the
      old sheet's key goes only if it held this id, and on the entry's own
      sheet the key is dropped when the entry has an end, whatever id it
      held, and set to `id` otherwise. */
  function UpdateActive(now: map<string, Id>, from: Option<string>, e: Entry, id: Id): (r: map<string, Id>)
    ensures ActiveUpdated(now, r, from, e, id)
  {
    var cleared := if from.Some? && from.value in now && now[from.value] == id
                   then now - {from.value} else now;
    if e.end.Some? then (if e.sheet in cleared then cleared - {e.sheet} else cleared)
    else cleared[e.sheet := id]
  }

  /** The `upsert` step of `edit`, once the metadata is loaded and the
      guards have passed: merge the fields, then write the entry and after
      it the metadata. Reading the old sheet's key of a missing active map
      throws before anything is written. */
  function Upsert(db: Db, opts: Options, env: Env): (r: Reply<Row>)
    requires db.meta.Some?
    requires opts.id.Some? ==> opts.id.value in db.entries
    requires env.freshId !in db.entries
    ensures r.Fail? <==>
      MovedFrom(opts, Prior(db, opts), Merge(Prior(db, opts), opts, db.meta.value.current, env.now)).Some?
      && db.meta.value.now.None?
    ensures r.Fail? ==> r.error == Crashed(NowMissing)
    ensures r.Done? ==>
      && (opts.id.Some? ==> r.value.id == opts.id.value)
      && (opts.id.None? ==> r.value.id == env.freshId)
      && var m, prior, e := db.meta.value, Prior(db, opts), r.value.entry;
      && e == Merge(prior, opts, m.current, env.now)
      && |r.writes| == 2
      && r.writes[0] == PutEntry(r.value.id, e)
      && r.writes[1].PutMeta?
      && var m' := r.writes[1].meta;
      && m'.current == m.current
      && e.sheet in m'.sheets
      && m.sheets <= m'.sheets
      && (forall x :: x in m'.sheets <==> x in m.sheets || x == e.sheet)
      && |m'.sheets| == |m.sheets| + (if e.sheet in m.sheets then 0 else 1)
      && m'.now.Some?
      && ActiveUpdated(NowOf(m), m'.now.value, MovedFrom(opts, prior, e), e, r.value.id)
      && Post(db, r) == Db(Some(m'), db.entries[r.value.id := e])
  {
    var m := db.meta.value;
    var prior := Prior(db, opts);
    var e := Merge(prior, opts, m.current, env.now);
    var from := MovedFrom(opts, prior, e);
    var id := if opts.id.Some? then opts.id.value else env.freshId;
    if from.Some? && m.now.None? then Fail(Crashed(NowMissing))
    else
      var sheets := if e.sheet in m.sheets then m.sheets else m.sheets + [e.sheet];
      var m' := m.(sheets := sheets, now := Some(UpdateActive(NowOf(m), from, e, id)));
      var ws := [PutEntry(id, e), PutMeta(m')];
      assert ApplyAll(db, ws) == Db(Some(m'), db.entries[id := e]) by {
        var db1 := Apply(db, ws[0]);
        assert ws[1..] == [PutMeta(m')] && ws[1..][1..] == [];
        assert ApplyAll(db1, ws[1..]) == ApplyAll(Apply(db1, PutMeta(m')), []);
      }
      Done(Row(id, e), ws)
  }

  /** `in(options)` / `edit(options)`: the metadata must exist, some sheet
      must be named or current, and a check-in (no id) is refused while the
      current sheet has an active entry; an id must name a stored
      document. */
  function Edit(db: Db, opts: Options, env: Env): (r: Reply<Row>)
    requires env.freshId !in db.entries
    ensures db.meta.None? ==> r == Fail(NoMetadata)
    ensures db.meta.Some? && !Truthy(db.meta.value.current) && !Truthy(opts.sheet)
            ==> r == Fail(NoSheetSelected)
    ensures db.meta.Some? && (Truthy(db.meta.value.current) || Truthy(opts.sheet))
            && AlreadyIn(db.meta.value, opts)
            ==> r == Fail(AlreadyCheckedIn)
    ensures db.meta.Some? && (Truthy(db.meta.value.current) || Truthy(opts.sheet))
            && opts.id.Some? && opts.id.value !in db.entries
            ==> r == Fail(NotFound(opts.id.value))
    ensures db.meta.Some? && (Truthy(db.meta.value.current) || Truthy(opts.sheet))
            && !AlreadyIn(db.meta.value, opts)
            && (opts.id.Some? ==> opts.id.value in db.entries)
            ==> r == Upsert(db, opts, env)
    ensures r.Done? ==> r.value.entry.sheet != ""
  {
    if db.meta.None? then Fail(NoMetadata)
    else
      var m := db.meta.value;
      if !Truthy(m.current) && !Truthy(opts.sheet) then Fail(NoSheetSelected)
      else if AlreadyIn(m, opts) then Fail(AlreadyCheckedIn)
      else if opts.id.Some? && opts.id.value !in db.entries then Fail(NotFound(opts.id.value))
      else Upsert(db, opts, env)
  }

  /** The sheet `out` works on: the given one, else the current one. */
  function OutSheet(m: Meta, opts: Options): Option<string> {
    Or(opts.sheet, m.current)
  }

  /** `out(options)`. Without an id the entry is the one active on the
      target sheet, and without one there is nothing to check out of; the
      end defaults to now. The rest is `edit` with the resolved id and end,
      which re-reads the metadata and applies its own checks. */
  function Out(db: Db, opts: Options, env: Env): (r: Reply<Row>)
    requires env.freshId !in db.entries
    ensures db.meta.None? ==> r == Fail(NoMetadata)
    ensures db.meta.Some? && opts.id.None? && db.meta.value.now.Some?
            && Lookup(db.meta.value.now.value, OutSheet(db.meta.value, opts)).None?
            ==> r == Fail(NotCheckedIn)
    ensures db.meta.Some? && opts.id.None? && db.meta.value.now.None?
            ==> r == Fail(Crashed(NowMissing))
    ensures db.meta.Some? && (opts.id.Some? || Lookup(NowOf(db.meta.value), OutSheet(db.meta.value, opts)).Some?)
            ==> r == Edit(db, opts.(end := Some(if opts.end.Some? then opts.end.value else env.now),
                                   id := Some(if opts.id.Some? then opts.id.value
                                              else Lookup(NowOf(db.meta.value), OutSheet(db.meta.value, opts)).value)),
                          env)
    ensures r.Done? ==>
      && db.meta.Some?
      && r.value.entry.end == Some(if opts.end.Some? then opts.end.value else env.now)
      && (opts.id.Some? ==> r.value.id == opts.id.value)
      && (opts.id.None? ==> Some(r.value.id) == Lookup(NowOf(db.meta.value), OutSheet(db.meta.value, opts)))
      && Post(db, r).meta.Some?
      && Post(db, r).meta.value.now.Some?
      && r.value.entry.sheet !in NowOf(Post(db, r).meta.value)
  {
    if db.meta.None? then Fail(NoMetadata)
    else
      var m := db.meta.value;
      var sheet := OutSheet(m, opts);
      if m.now.Some? && Lookup(m.now.value, sheet).None? && opts.id.None? then Fail(NotCheckedIn)
      else if opts.id.None? && m.now.None? then Fail(Crashed(NowMissing))
      else
        var end := if opts.end.Some? then opts.end.value else env.now;
        var id := if opts.id.Some? then opts.id.value else Lookup(m.now.value, sheet).value;
        Edit(db, opts.(end := Some(end), id := Some(id)), env)
  }
}
