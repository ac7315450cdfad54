/** Concrete runs of the engine: the sheet-selection sequence, a check-in
    followed by a check-out, and the behaviours that follow from the guard
    of a check-in looking at the current sheet and from checking an entry
    out by id. */
module Scenarios {
  import opened Base
  import opened Store
  import opened Sheets
  import opened Entries

  /** A store whose metadata exists but has no sheets yet. */
  const Empty: Db := Db(Some(Meta([], None, Some(map[]))), map[])

  const NoOptions: Options := Options(None, None, None, None, None)

  /** Selecting "a", then "b", then "a" again: each call reports a change,
      the list is ["a", "b"] and "a" is current. */
  lemma SelectABA()
    ensures
      var r1 := Sheet(Empty, "a");
      var db1 := Post(Empty, r1);
      var r2 := Sheet(db1, "b");
      var db2 := Post(db1, r2);
      var r3 := Sheet(db2, "a");
      var db3 := Post(db2, r3);
      && r1 == Done(true, r1.writes) && r2 == Done(true, r2.writes) && r3 == Done(true, r3.writes)
      && db3.meta.value.sheets == ["a", "b"]
      && db3.meta.value.current == Some("a")
  {
    var r1 := Sheet(Empty, "a");
    var db1 := Post(Empty, r1);
    assert db1.meta.value.sheets == ["a"];
    var r2 := Sheet(db1, "b");
    var db2 := Post(db1, r2);
    assert db2.meta.value.sheets == ["a", "b"];
    assert db2.meta.value.current == Some("b");
    var r3 := Sheet(db2, "a");
    assert "a" in db2.meta.value.sheets;
  }

  /** Selecting the sheet that is already current answers `false` but
      still writes the metadata, unchanged. */
  lemma ReselectStillWrites(db: Db, name: string)
    requires db.meta.Some? && db.meta.value.current == Some(name) && name != ""
    requires name in db.meta.value.sheets
    ensures Sheet(db, name) == Done(false, [PutMeta(db.meta.value)])
  {
    var m := db.meta.value;
    var r := Sheet(db, name);
    assert r.writes[0].meta.sheets == m.sheets;
  }

  /** A store with sheet "work" current and nothing checked in. */
  const Work: Db := Db(Some(Meta(["work"], Some("work"), Some(map[]))), map[])

  /** Checking in to "work" with note "build" at time 10, then checking out
      at time 20 without an id: the check-in makes "work" active on the new
      entry, and the check-out closes that entry at 20 and clears "work". */
  lemma CheckInThenOut()
    ensures
      var r1 := Edit(Work, NoOptions.(note := Some("build")), Env(10, "e1"));
      var db1 := Post(Work, r1);
      var r2 := Out(db1, NoOptions, Env(20, "e2"));
      var db2 := Post(db1, r2);
      && r1.Done? && r1.value.id == "e1"
      && NowOf(db1.meta.value) == map["work" := "e1"]
      && r2.Done? && r2.value.id == "e1"
      && db2.entries["e1"].end == Some(20)
      && db2.entries["e1"].start == Some(10)
      && db2.entries["e1"].note == "build"
      && "work" !in NowOf(db2.meta.value)
  {
    var r1 := Edit(Work, NoOptions.(note := Some("build")), Env(10, "e1"));
    var db1 := Post(Work, r1);
    assert r1.value.entry.sheet == "work";
    assert NowOf(db1.meta.value) == map["work" := "e1"];
    assert "e1" in db1.entries;
  }

  /** The check-in guard looks at the current sheet: with "a" current and
      idle, two check-ins to sheet "b" both succeed and leave two open
      entries on "b", only the second of which is active. */
  lemma TwoOpenEntriesOnOneSheet()
    ensures
      var db0 := Db(Some(Meta(["a"], Some("a"), Some(map[]))), map[]);
      var toB := NoOptions.(sheet := Some("b"));
      var r1 := Edit(db0, toB, Env(1, "e1"));
      var db1 := Post(db0, r1);
      var r2 := Edit(db1, toB, Env(2, "e2"));
      var db2 := Post(db1, r2);
      && r1.Done? && r2.Done?
      && db2.entries["e1"].sheet == "b" && db2.entries["e1"].end.None?
      && db2.entries["e2"].sheet == "b" && db2.entries["e2"].end.None?
      && NowOf(db2.meta.value)["b"] == "e2"
  {
    var db0 := Db(Some(Meta(["a"], Some("a"), Some(map[]))), map[]);
    var toB := NoOptions.(sheet := Some("b"));
    var r1 := Edit(db0, toB, Env(1, "e1"));
    var db1 := Post(db0, r1);
    assert NowOf(db1.meta.value) == map["b" := "e1"];
    assert db1.meta.value.current == Some("a");
    assert "e2" !in db1.entries;
  }

  /** The same guard refuses a check-in to an idle sheet "b" while the
      current sheet "a" is active. */
  lemma RefusedForIdleSheet()
    ensures
      var e := Entry(Some(1), None, "", "a", Some(1), EntryKind);
      var db0 := Db(Some(Meta(["a", "b"], Some("a"), Some(map["a" := "e1"]))), map["e1" := e]);
      Edit(db0, NoOptions.(sheet := Some("b")), Env(2, "e2")) == Fail(AlreadyCheckedIn)
  {
  }

  /** Checking out a closed entry by id clears its sheet's key even though
      the key held another, open entry. */
  lemma OutByIdClearsOtherEntry()
    ensures
      var closed := Entry(Some(1), Some(2), "", "a", Some(2), EntryKind);
      var open := Entry(Some(3), None, "", "a", Some(3), EntryKind);
      var db0 := Db(Some(Meta(["a"], Some("a"), Some(map["a" := "e2"]))),
                    map["e1" := closed, "e2" := open]);
      var r := Out(db0, NoOptions.(id := Some("e1")), Env(4, "e3"));
      var db1 := Post(db0, r);
      && r.Done?
      && "a" !in NowOf(db1.meta.value)
      && db1.entries["e2"].end.None?
  {
    var closed := Entry(Some(1), Some(2), "", "a", Some(2), EntryKind);
    var open := Entry(Some(3), None, "", "a", Some(3), EntryKind);
    var db0 := Db(Some(Meta(["a"], Some("a"), Some(map["a" := "e2"]))),
                  map["e1" := closed, "e2" := open]);
    assert "e1" in db0.entries && "e3" !in db0.entries;
  }

  /** Removing a sheet that has an active entry keeps its key in the
      active map. */
  lemma RemoveKeepsActiveKey()
    ensures
      var e := Entry(Some(1), None, "", "a", Some(1), EntryKind);
      var db0 := Db(Some(Meta(["a"], Some("a"), Some(map["a" := "e1"]))), map["e1" := e]);
      var r := RmSheet(db0, CurrentSheet, false, []);
      var db1 := Post(db0, r);
      && r == Done("a", r.writes)
      && db1.meta.value.sheets == []
      && db1.meta.value.current == None
      && NowOf(db1.meta.value) == map["a" := "e1"]
  {
    var e := Entry(Some(1), None, "", "a", Some(1), EntryKind);
    var db0 := Db(Some(Meta(["a"], Some("a"), Some(map["a" := "e1"]))), map["e1" := e]);
    assert Without(["a"], "a") == [] by {
      assert ["a"][1..] == [];
    }
  }
}
