/** The sheet lifecycle: select or create a sheet, remove a sheet (and,
    on request, every entry on it), and list the sheets. */
module Sheets {
  import opened Base
  import opened Store
  import opened Queries

  /** `sheet(name)`: add `name` to the sheets if it is new and make it the
      current sheet. The answer is `false` only when `name` already was the
      (set) current sheet. The metadata is written in every case, even when
      nothing changed; on a store without metadata the bootstrap path names
      an unbound variable and throws before writing anything. */
  function Sheet(db: Db, name: string): (r: Reply<bool>)
    ensures db.meta.None? <==> r.Fail?
    ensures db.meta.None? ==> r == Fail(Crashed(UnboundMetaKey))
    ensures r.Done? ==> |r.writes| == 1 && r.writes[0].PutMeta?
    ensures r.Done? ==>
      var m, m' := db.meta.value, r.writes[0].meta;
      && m'.current == Some(name)
      && (!r.value <==> Truthy(m.current) && m.current.value == name)
      && name in m'.sheets
      && m.sheets <= m'.sheets
      && (forall x :: x in m'.sheets <==> x in m.sheets || x == name)
      && |m'.sheets| == |m.sheets| + (if name in m.sheets then 0 else 1)
      && m'.now == m.now
      && Post(db, r) == db.(meta := Some(m'))
  {
    if db.meta.None? then Fail(Crashed(UnboundMetaKey))
    else
      var m := db.meta.value;
      var sheets := if name in m.sheets then m.sheets else m.sheets + [name];
      var selected := !Truthy(m.current) || m.current.value != name;
      var ws := [PutMeta(m.(sheets := sheets, current := Some(name)))];
      assert ApplyAll(db, ws) == ApplyAll(Apply(db, ws[0]), []) by {
        assert ws[1..] == [];
      }
      Done(selected, ws)
  }

  /** The sheet argument of `rmsheet`: a name, or `true` for the current
      sheet. */
  datatype Target = Named(name: string) | CurrentSheet

  function Resolve(m: Meta, t: Target): Option<string> {
    match t
    case Named(n) => Some(n)
    case CurrentSheet => m.current
  }

  /** `xs` with every occurrence of `s` dropped and the rest in order. */
  function Without(xs: seq<string>, s: string): (r: seq<string>)
    ensures forall x :: x in r <==> x in xs && x != s
    ensures multiset(r) == multiset(xs)[s := 0]
    ensures |r| <= |xs|
    decreases |xs|
  {
    if xs == [] then []
    else
      assert xs == [xs[0]] + xs[1..];
      if xs[0] == s then Without(xs[1..], s) else [xs[0]] + Without(xs[1..], s)
  }

  /** Dropping a name commutes with concatenation, so the names that stay
      keep their relative order. */
  lemma {:induction false} WithoutAppend(a: seq<string>, b: seq<string>, s: string)
    ensures Without(a + b, s) == Without(a, s) + Without(b, s)
    decreases |a|
  {
    if a != [] {
      assert (a + b)[0] == a[0] && (a + b)[1..] == a[1..] + b;
      WithoutAppend(a[1..], b, s);
    } else {
      assert a + b == b;
    }
  }

  /** A list without the name is left as it is. */
  lemma {:induction false} WithoutAbsent(xs: seq<string>, s: string)
    requires s !in xs
    ensures Without(xs, s) == xs
    decreases |xs|
  {
    if xs != [] {
      WithoutAbsent(xs[1..], s);
      assert xs == [xs[0]] + xs[1..];
    }
  }

  /** One removal per returned row, in the order of the rows. */
  function Removals(rows: seq<Row>): seq<Write> {
    seq(|rows|, i requires 0 <= i < |rows| => RemoveEntry(rows[i].id))
  }

  /** `rmsheet(target, entries)`. The name is resolved (`true` meaning the
      current sheet) and must be set; membership in the sheet list is not
      checked. Every occurrence of the name leaves the list, the current
      sheet is cleared if it was that name, and the active map is left as
      it was. With `entries`, every entry a `query({sheet})` returns is
      removed first; the metadata is written last. */
  function RmSheet(db: Db, target: Target, cascade: bool, order: seq<Id>): (r: Reply<string>)
    requires cascade ==> IsEnumeration(order, db.entries)
    ensures db.meta.None? ==> r == Fail(NoMetadata)
    ensures db.meta.Some? && !Truthy(Resolve(db.meta.value, target)) ==> r == Fail(NoSheetSpecified)
    ensures r.Done? <==> db.meta.Some? && Truthy(Resolve(db.meta.value, target))
    ensures r.Done? ==>
      var m, s := db.meta.value, r.value;
      && Resolve(m, target) == Some(s)
      && |r.writes| >= 1
      && var last := r.writes[|r.writes| - 1];
      && last.PutMeta?
      && last.meta.sheets == Without(m.sheets, s)
      && (last.meta.current.None? <==> m.current.None? || m.current == Some(s))
      && (m.current != Some(s) ==> last.meta.current == m.current)
      && last.meta.now == m.now
      && Post(db, r).meta == Some(last.meta)
      && (!cascade ==> |r.writes| == 1 && Post(db, r) == db.(meta := Some(last.meta)))
      && (cascade ==> r.writes[..|r.writes| - 1] == Removals(Query(db, order, SheetFilter(s))))
  {
    if db.meta.None? then Fail(NoMetadata)
    else
      var m := db.meta.value;
      var sheet := Resolve(m, target);
      if !Truthy(sheet) then Fail(NoSheetSpecified)
      else
        var s := sheet.value;
        var m' := m.(sheets := Without(m.sheets, s),
                     current := if m.current == Some(s) then None else m.current);
        var removals := if cascade then Removals(Query(db, order, SheetFilter(s))) else [];
        var ws := removals + [PutMeta(m')];
        assert ws[..|removals|] == removals;
        ApplyAllLastMeta(db, ws);
        assert !cascade ==> ApplyAll(db, ws) == db.(meta := Some(m')) by {
          if !cascade {
            assert ws[1..] == [];
          }
        }
        Done(s, ws)
  }

  /** Performing the removals deletes exactly the ids of the rows. */
  lemma {:induction false} ApplyRemovals(db: Db, rows: seq<Row>)
    ensures ApplyAll(db, Removals(rows))
         == db.(entries := db.entries - set row | row in rows :: row.id)
    decreases |rows|
  {
    if rows == [] {
      assert (set row | row in rows :: row.id) == {};
      assert db.entries - {} == db.entries;
    } else {
      var ws := Removals(rows);
      assert ws[1..] == Removals(rows[1..]);
      ApplyRemovals(db.(entries := db.entries - {rows[0].id}), rows[1..]);
      assert (set row | row in rows :: row.id)
          == {rows[0].id} + set row | row in rows[1..] :: row.id by {
        assert rows == [rows[0]] + rows[1..];
      }
    }
  }

  /** `rmsheet(s, true)` deletes exactly the entries on sheet `s` (the
      documents `query({sheet: s})` returns), leaves every other document
      as it was, and writes the new metadata. */
  lemma CascadeEffect(db: Db, target: Target, order: seq<Id>)
    requires IsEnumeration(order, db.entries)
    requires RmSheet(db, target, true, order).Done?
    ensures
      var r := RmSheet(db, target, true, order);
      var s, after := r.value, Post(db, r);
      && (forall id :: id in after.entries <==>
            id in db.entries && !(db.entries[id].kind == EntryKind && db.entries[id].sheet == s))
      && (forall id :: id in after.entries ==> after.entries[id] == db.entries[id])
      && (forall id :: id in after.entries ==> !(after.entries[id].kind == EntryKind && after.entries[id].sheet == s))
      && after.meta == Some(r.writes[|r.writes| - 1].meta)
  {
    var r := RmSheet(db, target, true, order);
    var s := r.value;
    var rows := Query(db, order, SheetFilter(s));
    var n := |r.writes| - 1;
    assert r.writes == r.writes[..n] + [r.writes[n]];
    ApplyAllAppend(db, r.writes[..n], [r.writes[n]]);
    ApplyRemovals(db, rows);
    var gone := set row | row in rows :: row.id;
    forall id | id in db.entries
      ensures id in gone <==> db.entries[id].kind == EntryKind && db.entries[id].sheet == s
    {
      var row := Row(id, db.entries[id]);
      QueryExact(db, order, SheetFilter(s), row);
      SheetFilterMatches(s, db.entries[id]);
      if id in gone {
        var row' :| row' in rows && row'.id == id;
        QueryExact(db, order, SheetFilter(s), row');
      }
    }
  }

  /** What `sheets()` answers: the sheet list, the current sheet, and the
      sheets that have an open entry. */
  datatype Listing = Listing(sheets: seq<string>, current: Option<string>, active: set<string>)

  /** `sheets()`: a projection of the metadata that writes nothing. A
      missing metadata document is the store's not-found error, and a
      metadata document without an active map throws. */
  function ListSheets(db: Db): (r: Reply<Listing>)
    ensures db.meta.None? ==> r == Fail(NotFound(MetaKey))
    ensures db.meta.Some? && db.meta.value.now.None? ==> r == Fail(Crashed(NowMissing))
    ensures r.Done? <==> db.meta.Some? && db.meta.value.now.Some?
    ensures r.Done? ==>
      && db.meta.Some?
      && r.writes == []
      && r.value.sheets == db.meta.value.sheets
      && r.value.current == db.meta.value.current
      && (forall s :: s in r.value.active <==> Lookup(NowOf(db.meta.value), Some(s)).Some?)
  {
    if db.meta.None? then Fail(NotFound(MetaKey))
    else
      var m := db.meta.value;
      if m.now.None? then Fail(Crashed(NowMissing))
      else Done(Listing(m.sheets, m.current, m.now.value.Keys), [])
  }
}
