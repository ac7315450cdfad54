/** The query engine: select the entry documents that satisfy every
    supplied predicate, then sort them by one field. */
module Queries {
  import opened Base
  import opened Store
  import opened Text

  /** The entry fields a query can sort by. */
  datatype SortField = ByStart | ByEnd | ByNote | BySheet

  /** The options of a query. An unset option imposes nothing; `sort`
      defaults to the start time. */
  datatype Filter = Filter(
    before: Option<Time>,
    after: Option<Time>,
    active: bool,
    note: Option<string>,
    sheet: Option<string>,
    sort: Option<SortField>)

  /** JavaScript compares a `null` date as the number 0. */
  function StartValue(e: Entry): int {
    if e.start.Some? then e.start.value else 0
  }

  function EndValue(e: Entry): int {
    if e.end.Some? then e.end.value else 0
  }

  /** The conjunction of the supplied predicates, each written as the
      condition under which the engine drops a document. */
  predicate Satisfies(f: Filter, e: Entry) {
    && !(f.before.Some? && StartValue(e) >= f.before.value)
    && !(f.after.Some? && StartValue(e) < f.after.value)
    && !(f.active && e.end.Some?)
    && !(Truthy(f.note) && !Contains(e.note, f.note.value))
    && !(Truthy(f.sheet) && e.sheet != f.sheet.value)
  }

  /** A document the query returns: an entry that satisfies the filter. */
  predicate Matches(f: Filter, e: Entry) {
    e.kind == EntryKind && Satisfies(f, e)
  }

  function SortOf(f: Filter): SortField {
    if f.sort.Some? then f.sort.value else ByStart
  }

  /** `a` may come before `b` when sorting by field `k`. */
  predicate Le(k: SortField, a: Entry, b: Entry) {
    match k
    case ByStart => StartValue(a) <= StartValue(b)
    case ByEnd => EndValue(a) <= EndValue(b)
    case ByNote => LexLe(a.note, b.note)
    case BySheet => LexLe(a.sheet, b.sheet)
  }

  lemma LeTotal(k: SortField, a: Entry, b: Entry)
    ensures Le(k, a, b) || Le(k, b, a)
  {
    match k
    case ByNote => LexLeTotal(a.note, b.note);
    case BySheet => LexLeTotal(a.sheet, b.sheet);
    case _ =>
  }

  lemma LeTransitive(k: SortField, a: Entry, b: Entry, c: Entry)
    requires Le(k, a, b) && Le(k, b, c)
    ensures Le(k, a, c)
  {
    match k
    case ByNote => LexLeTransitive(a.note, b.note, c.note);
    case BySheet => LexLeTransitive(a.sheet, b.sheet, c.sheet);
    case _ =>
  }

  ghost predicate SortedBy(k: SortField, s: seq<Row>) {
    forall i, j :: 0 <= i < j < |s| ==> Le(k, s[i].entry, s[j].entry)
  }

  /** Putting a row in front of a sorted sequence keeps it sorted when the
      row may come before every element. */
  lemma PrependSorted(k: SortField, x: Row, s: seq<Row>)
    requires SortedBy(k, s)
    requires forall j :: 0 <= j < |s| ==> Le(k, x.entry, s[j].entry)
    ensures SortedBy(k, [x] + s)
  {
    var t := [x] + s;
    forall i, j | 0 <= i < j < |t| ensures Le(k, t[i].entry, t[j].entry) {
      assert t[j] == s[j - 1];
      if i > 0 {
        assert t[i] == s[i - 1];
      }
    }
  }

  /** Inserts `x` into a sorted sequence, keeping it sorted. */
  function Insert(k: SortField, x: Row, s: seq<Row>): (r: seq<Row>)
    requires SortedBy(k, s)
    ensures SortedBy(k, r)
    ensures multiset(r) == multiset(s) + multiset{x}
    decreases |s|
  {
    if s == [] then [x]
    else if Le(k, x.entry, s[0].entry) then
      InsertFront(k, x, s);
      [x] + s
    else
      var rest := Insert(k, x, s[1..]);
      InsertBehind(k, x, s, rest);
      [s[0]] + rest
  }

  lemma InsertFront(k: SortField, x: Row, s: seq<Row>)
    requires SortedBy(k, s) && s != [] && Le(k, x.entry, s[0].entry)
    ensures SortedBy(k, [x] + s)
    ensures multiset([x] + s) == multiset(s) + multiset{x}
  {
    forall j | 0 <= j < |s| ensures Le(k, x.entry, s[j].entry) {
      if j > 0 { LeTransitive(k, x.entry, s[0].entry, s[j].entry); }
    }
    PrependSorted(k, x, s);
  }

  lemma InsertBehind(k: SortField, x: Row, s: seq<Row>, rest: seq<Row>)
    requires SortedBy(k, s) && s != [] && !Le(k, x.entry, s[0].entry)
    requires SortedBy(k, rest) && multiset(rest) == multiset(s[1..]) + multiset{x}
    ensures SortedBy(k, [s[0]] + rest)
    ensures multiset([s[0]] + rest) == multiset(s) + multiset{x}
  {
    forall j | 0 <= j < |rest| ensures Le(k, s[0].entry, rest[j].entry) {
      assert rest[j] in multiset(rest);
      if rest[j] == x {
        LeTotal(k, x.entry, s[0].entry);
      } else {
        assert rest[j] in multiset(s[1..]);
        var i :| 0 <= i < |s[1..]| && s[1..][i] == rest[j];
        assert s[1..][i] == s[i + 1];
      }
    }
    PrependSorted(k, s[0], rest);
    assert s == [s[0]] + s[1..];
  }

  /** Insertion sort: a sorted permutation of `s`. Ties keep no promised
      order. */
  function SortRows(k: SortField, s: seq<Row>): (r: seq<Row>)
    ensures SortedBy(k, r)
    ensures multiset(r) == multiset(s)
    decreases |s|
  {
    if s == [] then []
    else
      assert s == [s[0]] + s[1..];
      Insert(k, s[0], SortRows(k, s[1..]))
  }

  /** `order` lists every id of the store exactly once, as the store's
      view enumerates its documents. */
  ghost predicate IsEnumeration(order: seq<Id>, entries: map<Id, Entry>) {
    && NoDup(order)
    && (forall id :: id in entries <==> id in order)
  }

  /** The documents of the view, in enumeration order, that the filter
      keeps. */
  function View(entries: map<Id, Entry>, order: seq<Id>, f: Filter): seq<Row>
    decreases |order|
  {
    if order == [] then []
    else
      var rest := View(entries, order[1..], f);
      if order[0] in entries && Matches(f, entries[order[0]])
      then [Row(order[0], entries[order[0]])] + rest
      else rest
  }

  /** A row is stored when the store holds exactly that document under
      that id. */
  predicate Stored(entries: map<Id, Entry>, row: Row) {
    row.id in entries && entries[row.id] == row.entry
  }

  /** Over an enumeration without repeats, the view holds each matching
      stored document once and nothing else. */
  lemma {:induction false} ViewCount(entries: map<Id, Entry>, order: seq<Id>, f: Filter, row: Row)
    requires NoDup(order)
    ensures multiset(View(entries, order, f))[row]
         == if row.id in order && Stored(entries, row) && Matches(f, row.entry) then 1 else 0
    decreases |order|
  {
    if order != [] {
      assert NoDup(order[1..]) by {
        forall i, j | 0 <= i < j < |order[1..]| ensures order[1..][i] != order[1..][j] {
          assert order[1..][i] == order[i + 1] && order[1..][j] == order[j + 1];
        }
      }
      ViewCount(entries, order[1..], f, row);
      assert order == [order[0]] + order[1..];
      assert order[0] !in order[1..] by {
        forall i | 0 <= i < |order[1..]| ensures order[1..][i] != order[0] {
          assert order[1..][i] == order[i + 1];
        }
      }
    }
  }

  /** `query(options)`: every entry document that satisfies each supplied
      predicate, once, sorted by the chosen field. */
  function Query(db: Db, order: seq<Id>, f: Filter): (r: seq<Row>)
    requires IsEnumeration(order, db.entries)
    ensures forall row :: multiset(r)[row]
                          == (if Stored(db.entries, row) && Matches(f, row.entry) then 1 else 0)
    ensures SortedBy(SortOf(f), r)
  {
    var v := View(db.entries, order, f);
    assert forall row :: multiset(v)[row]
                         == (if Stored(db.entries, row) && Matches(f, row.entry) then 1 else 0) by {
      forall row ensures multiset(v)[row]
           == if Stored(db.entries, row) && Matches(f, row.entry) then 1 else 0 {
        ViewCount(db.entries, order, f, row);
      }
    }
    SortRows(SortOf(f), v)
  }

  /** A returned row is a stored document that satisfies the filter, and
      every such document is returned. */
  lemma QueryExact(db: Db, order: seq<Id>, f: Filter, row: Row)
    requires IsEnumeration(order, db.entries)
    ensures row in Query(db, order, f) <==> Stored(db.entries, row) && Matches(f, row.entry)
  {
    var r := Query(db, order, f);
    assert row in r <==> multiset(r)[row] > 0;
  }

  /** The filter of `query({sheet: s})`. */
  function SheetFilter(s: string): Filter {
    Filter(None, None, false, None, Some(s), None)
  }

  /** With only a sheet given, a query returns exactly the entries on that
      sheet. */
  lemma SheetFilterMatches(s: string, e: Entry)
    requires s != ""
    ensures Matches(SheetFilter(s), e) <==> e.kind == EntryKind && e.sheet == s
  {
  }

  /** `query({sheet: S, active: true})` keeps exactly the open entries on
      sheet S. */
  lemma OpenOnSheetMatches(s: string, e: Entry)
    requires s != ""
    ensures Matches(Filter(None, None, true, None, Some(s), None), e)
        <==> e.kind == EntryKind && e.sheet == s && e.end.None?
  {
  }

  /** The note predicate keeps exactly the entries whose note has the
      given text at some position. */
  lemma NoteFilterMatches(p: string, e: Entry)
    requires p != ""
    ensures Matches(Filter(None, None, false, Some(p), None, None), e)
        <==> e.kind == EntryKind && exists i :: OccursAt(e.note, p, i)
  {
    ContainsIff(e.note, p);
  }
}
