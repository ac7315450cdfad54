/** Invariants of the metadata and what each operation does to them.

    ActiveValid is the consistency the active map is meant to have: every
    key names a sheet whose open entry the key points at. Selecting a
    sheet, checking in, editing and checking out keep it; removing a sheet
    with its entries does not (the removed sheet's key is left pointing at
    a deleted document). SheetsWellFormed says the sheet list has no
    repeats and holds the current sheet; every operation keeps it. */
module Invariants {
  import opened Base
  import opened Store
  import opened Queries
  import opened Sheets
  import opened Entries

  /** The entry `id` exists, is on sheet `s` and is open. */
  ghost predicate OpenOn(db: Db, s: string, id: Id) {
    id in db.entries
    && db.entries[id].kind == EntryKind
    && db.entries[id].sheet == s
    && db.entries[id].end.None?
  }

  /** Every key of the active map other than `except` names a set sheet
      and points at the open entry on that sheet. */
  ghost predicate ActiveValidExcept(db: Db, except: Option<string>) {
    db.meta.Some? ==>
      forall s :: s in NowOf(db.meta.value) && except != Some(s) ==>
        s != "" && OpenOn(db, s, NowOf(db.meta.value)[s])
  }

  ghost predicate ActiveValid(db: Db) {
    ActiveValidExcept(db, None)
  }

  ghost predicate SheetsWellFormed(db: Db) {
    db.meta.Some? ==>
      && NoDup(db.meta.value.sheets)
      && (Truthy(db.meta.value.current) ==> db.meta.value.current.value in db.meta.value.sheets)
  }

  /** Appending a name only when it is absent introduces no repeat. */
  lemma GrowNoDup(xs: seq<string>, ys: seq<string>, x: string)
    requires NoDup(xs)
    requires xs <= ys
    requires forall y :: y in ys <==> y in xs || y == x
    requires |ys| == |xs| + (if x in xs then 0 else 1)
    ensures NoDup(ys)
  {
    if x in xs {
      assert ys == xs;
    } else {
      assert ys == xs + [ys[|xs|]];
      var k :| 0 <= k < |ys| && ys[k] == x;
      assert k < |xs| ==> x in xs;
      assert ys[|xs|] == x;
    }
  }

  lemma {:induction false} WithoutNoDup(xs: seq<string>, s: string)
    requires NoDup(xs)
    ensures NoDup(Without(xs, s))
    decreases |xs|
  {
    if xs != [] {
      assert NoDup(xs[1..]) by {
        forall i, j | 0 <= i < j < |xs[1..]| ensures xs[1..][i] != xs[1..][j] {
          assert xs[1..][i] == xs[i + 1] && xs[1..][j] == xs[j + 1];
        }
      }
      WithoutNoDup(xs[1..], s);
      assert xs[0] !in xs[1..] by {
        forall i | 0 <= i < |xs[1..]| ensures xs[1..][i] != xs[0] {
          assert xs[1..][i] == xs[i + 1];
        }
      }
      var rest := Without(xs[1..], s);
      if xs[0] != s {
        assert xs[0] !in rest;
        var t := [xs[0]] + rest;
        forall i, j | 0 <= i < j < |t| ensures t[i] != t[j] {
          assert t[j] == rest[j - 1];
          if i > 0 { assert t[i] == rest[i - 1]; }
        }
      }
    }
  }

  /** Selecting a sheet keeps both invariants. */
  lemma SheetPreserves(db: Db, name: string)
    requires ActiveValid(db) && SheetsWellFormed(db)
    ensures ActiveValid(Post(db, Sheet(db, name)))
    ensures SheetsWellFormed(Post(db, Sheet(db, name)))
  {
    var r := Sheet(db, name);
    if r.Done? {
      var m, m' := db.meta.value, r.writes[0].meta;
      GrowNoDup(m.sheets, m'.sheets, name);
    }
  }

  /** Checking in or editing keeps both invariants: a newly set key points
      at the entry just written, a cleared key stays cleared, and a key
      that kept its value points at an entry the edit did not touch. */
  lemma EditPreserves(db: Db, opts: Options, env: Env)
    requires env.freshId !in db.entries
    requires ActiveValid(db) && SheetsWellFormed(db)
    ensures ActiveValid(Post(db, Edit(db, opts, env)))
    ensures SheetsWellFormed(Post(db, Edit(db, opts, env)))
  {
    var r := Edit(db, opts, env);
    if r.Done? {
      var m, m' := db.meta.value, r.writes[1].meta;
      var id, e := r.value.id, r.value.entry;
      var prior := Prior(db, opts);
      var from := MovedFrom(opts, prior, e);
      var after := Post(db, r);
      var before, nw := NowOf(m), m'.now.value;
      assert after.entries == db.entries[id := e] && after.meta == Some(m');
      GrowNoDup(m.sheets, m'.sheets, e.sheet);
      forall k | k in nw ensures k != "" && OpenOn(after, k, nw[k]) {
        if k != e.sheet {
          assert k in before && nw[k] == before[k];
          assert OpenOn(db, k, before[k]);
        }
      }
    }
  }

  /** Checking out keeps both invariants, since it is an edit. */
  lemma OutPreserves(db: Db, opts: Options, env: Env)
    requires env.freshId !in db.entries
    requires ActiveValid(db) && SheetsWellFormed(db)
    ensures ActiveValid(Post(db, Out(db, opts, env)))
    ensures SheetsWellFormed(Post(db, Out(db, opts, env)))
  {
    if db.meta.Some? {
      var m := db.meta.value;
      var target := Lookup(NowOf(m), OutSheet(m, opts));
      if opts.id.Some? || target.Some? {
        var end := if opts.end.Some? then opts.end.value else env.now;
        var id := if opts.id.Some? then opts.id.value else target.value;
        EditPreserves(db, opts.(end := Some(end), id := Some(id)), env);
      }
    }
  }

  /** Removing a sheet keeps the sheet list well formed; without its
      entries it also keeps the active map valid. */
  lemma RmSheetPreserves(db: Db, target: Target, order: seq<Id>)
    requires ActiveValid(db) && SheetsWellFormed(db)
    ensures SheetsWellFormed(Post(db, RmSheet(db, target, false, order)))
    ensures ActiveValid(Post(db, RmSheet(db, target, false, order)))
  {
    var r := RmSheet(db, target, false, order);
    if r.Done? {
      WithoutNoDup(db.meta.value.sheets, r.value);
    }
  }

  /** Removing a sheet with its entries keeps the sheet list well formed,
      and every key of the active map other than the removed sheet's still
      points at its open entry. */
  lemma CascadePreservesOthers(db: Db, target: Target, order: seq<Id>)
    requires IsEnumeration(order, db.entries)
    requires ActiveValid(db) && SheetsWellFormed(db)
    requires RmSheet(db, target, true, order).Done?
    ensures
      var r := RmSheet(db, target, true, order);
      SheetsWellFormed(Post(db, r)) && ActiveValidExcept(Post(db, r), Some(r.value))
  {
    var r := RmSheet(db, target, true, order);
    var s, after := r.value, Post(db, r);
    CascadeEffect(db, target, order);
    WithoutNoDup(db.meta.value.sheets, s);
    var nw := NowOf(db.meta.value);
    assert NowOf(after.meta.value) == nw;
    forall k | k in nw && k != s ensures k != "" && OpenOn(after, k, nw[k]) {
      assert OpenOn(db, k, nw[k]);
    }
  }

  /** A key the active map sets for the removed sheet is left pointing at
      a document that `rmsheet(s, true)` deleted. */
  lemma CascadeLeavesStaleKey(db: Db, target: Target, order: seq<Id>)
    requires IsEnumeration(order, db.entries)
    requires ActiveValid(db)
    requires RmSheet(db, target, true, order).Done?
    requires RmSheet(db, target, true, order).value in NowOf(db.meta.value)
    ensures
      var r := RmSheet(db, target, true, order);
      var after := Post(db, r);
      && r.value in NowOf(after.meta.value)
      && NowOf(after.meta.value)[r.value] !in after.entries
  {
    var r := RmSheet(db, target, true, order);
    var s := r.value;
    CascadeEffect(db, target, order);
    var after := Post(db, r);
    var nw := NowOf(db.meta.value);
    assert after.meta.value.now == db.meta.value.now;
    var id := nw[s];
    assert OpenOn(db, s, id);
    assert id in db.entries && db.entries[id].kind == EntryKind && db.entries[id].sheet == s;
    assert id !in after.entries;
  }

  /** After selecting a sheet it is listed, and it is the current one. */
  lemma ListAfterSheet(db: Db, name: string)
    requires db.meta.Some? && db.meta.value.now.Some?
    ensures
      var l := ListSheets(Post(db, Sheet(db, name)));
      l.Done? && name in l.value.sheets && l.value.current == Some(name)
  {
  }

  /** After a check-in without an end, the entry's sheet is listed as
      active and points at the new entry. */
  lemma ListAfterCheckIn(db: Db, opts: Options, env: Env)
    requires env.freshId !in db.entries
    requires opts.id.None? && opts.end.None?
    requires Edit(db, opts, env).Done?
    ensures
      var r := Edit(db, opts, env);
      var l := ListSheets(Post(db, r));
      && l.Done?
      && r.value.entry.sheet in l.value.active
      && r.value.entry.sheet in l.value.sheets
      && NowOf(Post(db, r).meta.value)[r.value.entry.sheet] == r.value.id
  {
  }

  /** After a check-out, the entry is closed and its sheet is not listed
      as active. */
  lemma ListAfterOut(db: Db, opts: Options, env: Env)
    requires env.freshId !in db.entries
    requires Out(db, opts, env).Done?
    ensures
      var r := Out(db, opts, env);
      var l := ListSheets(Post(db, r));
      && l.Done?
      && r.value.entry.sheet !in l.value.active
      && r.value.entry.end.Some?
  {
  }

  /** The check-in guard: a check-in that names a sheet fails exactly when
      the metadata is missing or the CURRENT sheet is active, whichever
      sheet the entry is for, and a failed check-in writes nothing. */
  lemma CheckInGuard(db: Db, opts: Options, env: Env)
    requires env.freshId !in db.entries
    requires opts.id.None? && Truthy(opts.sheet)
    ensures Edit(db, opts, env).Fail? <==>
      db.meta.None? || (db.meta.value.now.Some? && Lookup(db.meta.value.now.value, db.meta.value.current).Some?)
    ensures Post(db, Edit(db, opts, env)) == db <== Edit(db, opts, env).Fail?
  {
  }
}
