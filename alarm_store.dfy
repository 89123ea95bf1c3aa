/** The `alarms` table of the SQLite store and the four statements the
    application runs against it. The table is a sequence of rows in rowid order;
    rows are never removed. */
module AlarmStore {

  /** An alarm as the application passes it around: the dict
      `{"time", "sound_path", "note"}`. Equality is structural, as for dicts. */
  datatype Alarm = Alarm(time: string, soundPath: string, note: string)

  /** A row of `alarms (id, time, sound_path, note, active, snooze_count)`. */
  datatype Row = Row(id: nat, time: string, soundPath: string, note: string, active: bool, snoozeCount: int)

  /** The columns `load_alarms` hands back for a row. */
  function Project(r: Row): Alarm
  {
    Alarm(r.time, r.soundPath, r.note)
  }

  /** `WHERE time = ? AND sound_path = ? AND note = ?`: the structural key. */
  predicate Keyed(r: Row, a: Alarm)
  {
    r.time == a.time && r.soundPath == a.soundPath && r.note == a.note
  }

  /** `SELECT time, sound_path, note FROM alarms WHERE active = 1`, in rowid order. */
  function ActiveAlarms(rows: seq<Row>): (r: seq<Alarm>)
    ensures |r| <= |rows|
  {
    if rows == [] then []
    else
      var last := rows[|rows| - 1];
      ActiveAlarms(rows[..|rows| - 1]) + (if last.active then [Project(last)] else [])
  }

  /** `UPDATE alarms SET time = ? WHERE <key>`. */
  function Retimed(rows: seq<Row>, a: Alarm, newTime: string): (r: seq<Row>)
    ensures |r| == |rows|
  {
    seq(|rows|, i requires 0 <= i < |rows| =>
      if Keyed(rows[i], a) then rows[i].(time := newTime) else rows[i])
  }

  /** `UPDATE alarms SET active = 0 WHERE <key>`. */
  function Deactivated(rows: seq<Row>, a: Alarm): (r: seq<Row>)
    ensures |r| == |rows|
  {
    seq(|rows|, i requires 0 <= i < |rows| =>
      if Keyed(rows[i], a) then rows[i].(active := false) else rows[i])
  }

  /** The loaded list with every copy of `a` left out. */
  function Without(s: seq<Alarm>, a: Alarm): seq<Alarm>
  {
    if s == [] then [] else Without(s[..|s| - 1], a) + (if s[|s| - 1] == a then [] else [s[|s| - 1]])
  }

  /** The loaded list with every copy of `a` given the time `newTime`. */
  function RetimedAlarms(s: seq<Alarm>, a: Alarm, newTime: string): seq<Alarm>
  {
    if s == [] then []
    else RetimedAlarms(s[..|s| - 1], a, newTime) + [if s[|s| - 1] == a then a.(time := newTime) else s[|s| - 1]]
  }

  class Database {
    var rows: seq<Row>
    /** The id AUTOINCREMENT hands out next: one past every id used so far. */
    var nextId: nat

    /** Ids are unique and increasing, and `snooze_count` keeps its default 0,
        because no statement writes it. */
    ghost predicate Valid()
      reads this
    {
      1 <= nextId &&
      (forall i, j :: 0 <= i < j < |rows| ==> rows[i].id < rows[j].id) &&
      (forall i :: 0 <= i < |rows| ==> 1 <= rows[i].id < nextId && rows[i].snoozeCount == 0)
    }

    /** `create_tables` on a fresh database file. */
    constructor ()
      ensures Valid() && rows == [] && nextId == 1
    {
      rows := [];
      nextId := 1;
    }

    /** `save_alarm(time, sound_path, note, active=True)`: one INSERT. */
    method SaveAlarm(time: string, soundPath: string, note: string, active: bool)
      requires Valid()
      modifies this
      ensures Valid()
      ensures rows == old(rows) + [Row(old(nextId), time, soundPath, note, active, 0)]
      ensures nextId == old(nextId) + 1
    {
      rows := rows + [Row(nextId, time, soundPath, note, active, 0)];
      nextId := nextId + 1;
    }

    /** `load_alarms`: the active rows, projected to the three alarm columns. */
    method LoadAlarms() returns (r: seq<Alarm>)
      ensures r == ActiveAlarms(rows)
    {
      r := [];
      var i := 0;
      while i < |rows|
        invariant 0 <= i <= |rows|
        invariant r == ActiveAlarms(rows[..i])
      {
        assert rows[..i + 1][..i] == rows[..i];
        if rows[i].active {
          r := r + [Project(rows[i])];
        }
        i := i + 1;
      }
      assert rows[..|rows|] == rows;
    }

    /** `update_alarm_time(alarm, new_time)`: every row with the alarm's key,
        active or not, gets the new time; nothing else changes. */
    method UpdateAlarmTime(a: Alarm, newTime: string)
      requires Valid()
      modifies this
      ensures Valid() && nextId == old(nextId)
      ensures rows == Retimed(old(rows), a, newTime)
      ensures forall i :: 0 <= i < |rows| ==>
        rows[i] == if Keyed(old(rows)[i], a) then old(rows)[i].(time := newTime) else old(rows)[i]
    {
      rows := Retimed(rows, a, newTime);
    }

    /** `deactivate_alarm(alarm)`: `active = 0` on every row with the alarm's key. */
    method DeactivateAlarm(a: Alarm)
      requires Valid()
      modifies this
      ensures Valid() && nextId == old(nextId)
      ensures rows == Deactivated(old(rows), a)
      ensures forall i :: 0 <= i < |rows| ==>
        rows[i] == if Keyed(old(rows)[i], a) then old(rows)[i].(active := false) else old(rows)[i]
    {
      rows := Deactivated(rows, a);
    }

    /** `delete_alarm(alarm)`: a soft delete, the same statement as `deactivate_alarm`. */
    method DeleteAlarm(a: Alarm)
      requires Valid()
      modifies this
      ensures Valid() && nextId == old(nextId)
      ensures rows == Deactivated(old(rows), a)
    {
      rows := Deactivated(rows, a);
    }
  }

  // ---------------------------------------------------------------------------
  // Lemmas about the statements

  /** `load_alarms` returns exactly the active rows' alarms. */
  lemma {:induction false} ActiveAlarmsMembers(rows: seq<Row>, a: Alarm)
    ensures a in ActiveAlarms(rows) <==> exists i :: 0 <= i < |rows| && rows[i].active && Project(rows[i]) == a
  {
    if rows != [] {
      var init := rows[..|rows| - 1];
      ActiveAlarmsMembers(init, a);
      if a in ActiveAlarms(init) {
        var i :| 0 <= i < |init| && init[i].active && Project(init[i]) == a;
        assert rows[i] == init[i];
      }
      if exists i :: 0 <= i < |rows| && rows[i].active && Project(rows[i]) == a {
        var i :| 0 <= i < |rows| && rows[i].active && Project(rows[i]) == a;
        if i < |init| {
          assert init[i] == rows[i];
        }
      }
    }
  }

  /** A saved alarm is loaded back, after everything loaded before. */
  lemma SaveThenLoad(rows: seq<Row>, id: nat, a: Alarm)
    ensures ActiveAlarms(rows + [Row(id, a.time, a.soundPath, a.note, true, 0)]) == ActiveAlarms(rows) + [a]
  {
    var rows' := rows + [Row(id, a.time, a.soundPath, a.note, true, 0)];
    assert rows'[..|rows'| - 1] == rows;
  }

  lemma DeactivatedPrefix(rows: seq<Row>, a: Alarm)
    requires rows != []
    ensures Deactivated(rows, a)[..|rows| - 1] == Deactivated(rows[..|rows| - 1], a)
  {
  }

  lemma RetimedPrefix(rows: seq<Row>, a: Alarm, newTime: string)
    requires rows != []
    ensures Retimed(rows, a, newTime)[..|rows| - 1] == Retimed(rows[..|rows| - 1], a, newTime)
  {
  }

  /** After deactivation the load is the earlier load without the alarm. */
  lemma {:induction false} DeactivatedLoad(rows: seq<Row>, a: Alarm)
    ensures ActiveAlarms(Deactivated(rows, a)) == Without(ActiveAlarms(rows), a)
  {
    if rows != [] {
      var d := Deactivated(rows, a);
      DeactivatedPrefix(rows, a);
      DeactivatedLoad(rows[..|rows| - 1], a);
      var last := rows[|rows| - 1];
      var init := ActiveAlarms(rows[..|rows| - 1]);
      assert ActiveAlarms(d) == Without(init, a) + (if d[|d| - 1].active then [Project(d[|d| - 1])] else []);
      assert Keyed(last, a) <==> Project(last) == a;
      if last.active {
        var s := init + [Project(last)];
        assert s[..|s| - 1] == init;
        assert ActiveAlarms(rows) == s;
        assert Without(s, a) == Without(init, a) + (if Project(last) == a then [] else [Project(last)]);
      } else {
        assert ActiveAlarms(rows) == init;
        assert ActiveAlarms(d) == Without(init, a);
      }
    }
  }

  /** After deactivation the alarm is no longer loaded. */
  lemma {:induction false} WithoutRemoves(s: seq<Alarm>, a: Alarm)
    ensures a !in Without(s, a)
    ensures forall b :: b != a ==> (b in Without(s, a) <==> b in s)
  {
    if s != [] {
      WithoutRemoves(s[..|s| - 1], a);
      assert s == s[..|s| - 1] + [s[|s| - 1]];
    }
  }

  /** Deactivating twice is the same as deactivating once. */
  lemma DeactivateIdempotent(rows: seq<Row>, a: Alarm)
    ensures Deactivated(Deactivated(rows, a), a) == Deactivated(rows, a)
  {
  }

  /** After a time update the load shows every copy of the alarm at its new time. */
  lemma {:induction false} RetimedLoad(rows: seq<Row>, a: Alarm, newTime: string)
    ensures ActiveAlarms(Retimed(rows, a, newTime)) == RetimedAlarms(ActiveAlarms(rows), a, newTime)
  {
    if rows != [] {
      var d := Retimed(rows, a, newTime);
      RetimedPrefix(rows, a, newTime);
      RetimedLoad(rows[..|rows| - 1], a, newTime);
      var last := rows[|rows| - 1];
      var init := ActiveAlarms(rows[..|rows| - 1]);
      assert ActiveAlarms(d) == RetimedAlarms(init, a, newTime) + (if d[|d| - 1].active then [Project(d[|d| - 1])] else []);
      assert Keyed(last, a) <==> Project(last) == a;
      if last.active {
        var s := init + [Project(last)];
        assert s[..|s| - 1] == init;
        assert ActiveAlarms(rows) == s;
        assert RetimedAlarms(s, a, newTime) == RetimedAlarms(init, a, newTime) + [if Project(last) == a then a.(time := newTime) else Project(last)];
      } else {
        assert ActiveAlarms(rows) == init;
        assert ActiveAlarms(d) == RetimedAlarms(init, a, newTime);
      }
    }
  }

  /** Add/delete round trip: a saved alarm is loaded; once deactivated it is not. */
  lemma SaveDeactivateRoundTrip(rows: seq<Row>, id: nat, a: Alarm)
    ensures a in ActiveAlarms(rows + [Row(id, a.time, a.soundPath, a.note, true, 0)])
    ensures a !in ActiveAlarms(Deactivated(rows + [Row(id, a.time, a.soundPath, a.note, true, 0)], a))
  {
    var rows' := rows + [Row(id, a.time, a.soundPath, a.note, true, 0)];
    SaveThenLoad(rows, id, a);
    DeactivatedLoad(rows', a);
    WithoutRemoves(ActiveAlarms(rows'), a);
  }
}
