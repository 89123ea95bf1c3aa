/** The alarm list behind the Alarms tab: `set_alarm`, `delete_alarm` and
    `update_alarm_listbox`. The three user interfaces (src/ui/ui_components.py,
    modern_ui.py and src/ui/modern_ui.py) run the same statements on
    `app.alarms` and `app.db`; the widgets around them are inputs here (the
    spinbox values after `int()`, the sound path, the note, the selection). */
module AlarmList {
  import opened ClockTime
  import opened AlarmStore
  import opened Engine

  datatype DeleteOutcome = NoSelection | Deleted | SelectionOutOfRange

  /** One listbox line: `"time - note"`, or just the time for an empty note.
      A line starts with the alarm's time, ends with its note after `" - "`,
      and is the bare time exactly when the note is empty. */
  function DisplayText(a: Alarm): (s: string)
    ensures |s| >= |a.time| && s[..|a.time|] == a.time
    ensures s == a.time <==> a.note == ""
    ensures a.note != "" ==> s[|a.time|..] == " - " + a.note
  {
    if a.note != "" then a.time + " - " + a.note else a.time
  }

  /** `update_alarm_listbox`: clear the listbox and insert one line per alarm,
      in list order. */
  method UpdateAlarmListbox(app: SmartAlarmClock) returns (lines: seq<string>)
    ensures |lines| == |app.alarms|
    ensures forall i :: 0 <= i < |app.alarms| ==> lines[i] == DisplayText(app.alarms[i].alarm)
  {
    lines := [];
    for i := 0 to |app.alarms|
      invariant |lines| == i
      invariant forall j :: 0 <= j < i ==> lines[j] == DisplayText(app.alarms[j].alarm)
    {
      lines := lines + [DisplayText(app.alarms[i].alarm)];
    }
  }

  /** The success path of `set_alarm`: `save_alarm(time_str, sound_path, note)`,
      then append the same dict, with a new identity, to `app.alarms`. */
  method SaveAndAppend(app: SmartAlarmClock, a: Alarm)
    requires app.Valid()
    modifies app, app.db
    ensures app.Valid()
    ensures app.db.rows == old(app.db.rows) + [Row(old(app.db.nextId), a.time, a.soundPath, a.note, true, 0)]
    ensures app.db.nextId == old(app.db.nextId) + 1
    ensures app.alarms == old(app.alarms) + [Entry(old(app.nextRef), a)] && app.nextRef == old(app.nextRef) + 1
    ensures ActiveAlarms(app.db.rows) == ActiveAlarms(old(app.db.rows)) + [a]
    ensures Records(app.alarms) == Records(old(app.alarms)) + [a]
    ensures app.pending == old(app.pending) && app.dialog == old(app.dialog)
    ensures app.running == old(app.running) && app.polling == old(app.polling) && app.audio == old(app.audio)
  {
    ghost var c := app.State();
    var e := Entry(app.nextRef, a);
    SaveThenLoad(app.db.rows, app.db.nextId, a);
    RecordsSnoc(c.alarms, e);
    AppendConsistent(c, app.nextRef, a);
    app.db.SaveAlarm(a.time, a.soundPath, a.note, true);
    app.alarms := app.alarms + [e];
    app.nextRef := app.nextRef + 1;
    assert app.State() == c.(alarms := c.alarms + [e]);
    assert app.db.Valid() && Consistent(app.State(), app.nextRef);
  }

  /** `set_alarm`: `hour` and `minute` are the spinbox values after `int()`
      (None where `int()` raises). The time must survive the
      `f"{hour:02d}:{minute:02d}"` / `strptime` check; then the alarm is saved
      with `active` true and a new dict is appended to `app.alarms`. Both the
      store's load and the in-memory list gain the same alarm at the end. */
  method SetAlarm(app: SmartAlarmClock, hour: Option<int>, minute: Option<int>, soundPath: string, note: string)
    returns (ok: bool)
    requires app.Valid()
    modifies app, app.db
    ensures app.Valid()
    ensures ok <==> hour.Some? && minute.Some? && 0 <= hour.value < 24 && 0 <= minute.value < 60
    ensures ok ==>
      var a := Alarm(FormatClock(hour.value * 60 + minute.value), soundPath, note);
      app.db.rows == old(app.db.rows) + [Row(old(app.db.nextId), a.time, soundPath, note, true, 0)] &&
      app.db.nextId == old(app.db.nextId) + 1 &&
      app.alarms == old(app.alarms) + [Entry(old(app.nextRef), a)] &&
      app.nextRef == old(app.nextRef) + 1 &&
      ActiveAlarms(app.db.rows) == ActiveAlarms(old(app.db.rows)) + [a] &&
      Records(app.alarms) == Records(old(app.alarms)) + [a]
    ensures !ok ==>
      app.db.rows == old(app.db.rows) && app.db.nextId == old(app.db.nextId) &&
      app.alarms == old(app.alarms) && app.nextRef == old(app.nextRef)
    ensures app.pending == old(app.pending) && app.dialog == old(app.dialog)
    ensures app.running == old(app.running) && app.polling == old(app.polling) && app.audio == old(app.audio)
  {
    // A spinbox that `int()` rejects and a time that `strptime` rejects reach
    // the same `except ValueError`.
    var time := None;
    if hour.Some? && minute.Some? {
      time := ValidatedTime(hour.value, minute.value);
      ValidatedTimeExact(hour.value, minute.value);
    }
    if time.None? {
      return false;
    }
    assert time.value == FormatClock(hour.value * 60 + minute.value);
    SaveAndAppend(app, Alarm(time.value, soundPath, note));
    ok := true;
  }

  /** `delete_alarm`: `selection` is the listbox's `curselection()`. Without a
      selection nothing happens; otherwise the selected alarm is soft-deleted
      in the store and popped from `app.alarms` (an index past the list raises
      IndexError before anything changes). */
  method DeleteAlarm(app: SmartAlarmClock, selection: seq<nat>) returns (outcome: DeleteOutcome)
    requires app.Valid()
    modifies app, app.db
    ensures app.Valid()
    ensures selection == [] ==> outcome == NoSelection
    ensures selection != [] && selection[0] >= |old(app.alarms)| ==> outcome == SelectionOutOfRange
    ensures outcome != Deleted ==> app.db.rows == old(app.db.rows) && app.alarms == old(app.alarms)
    ensures selection != [] && selection[0] < |old(app.alarms)| ==>
      var i := selection[0];
      outcome == Deleted &&
      app.db.rows == Deactivated(old(app.db.rows), old(app.alarms)[i].alarm) &&
      app.alarms == old(app.alarms)[..i] + old(app.alarms)[i + 1..]
    ensures app.db.nextId == old(app.db.nextId) && app.nextRef == old(app.nextRef)
    ensures app.pending == old(app.pending) && app.dialog == old(app.dialog)
    ensures app.running == old(app.running) && app.polling == old(app.polling) && app.audio == old(app.audio)
  {
    if selection == [] {
      return NoSelection;
    }
    var index := selection[0];
    if index >= |app.alarms| {
      return SelectionOutOfRange;
    }
    var alarm := app.alarms[index].alarm;
    app.db.DeleteAlarm(alarm);
    PopConsistent(app.State(), app.nextRef, index);
    app.alarms := app.alarms[..index] + app.alarms[index + 1..];
    outcome := Deleted;
  }

  /** The prompt of a triggered alarm does not block the main window, so its
      alarm can be deleted from the list while it is pending. From the list
      `[07:30]`, the pass at 07:30 triggers it, `delete_alarm` pops it, and the
      invariant still holds with the pending dict gone from the list: the state
      in which `stop_alarm` of smart_alarm_clock.py raises (StopAlarm's
      NotInList outcome). */
  lemma DeleteWhilePending()
    ensures
      var a := Alarm("07:30", "alarm.wav", "");
      var c0 := Clock([Entry(0, a)], None, None, true, true);
      var c1 := AfterTick(c0, Moment(7, 30));
      var c2 := c1.(alarms := c1.alarms[..0] + c1.alarms[1..]);
      Consistent(c0, 1) && Consistent(c2, 1) &&
      c1.pending == Some(Entry(0, a)) && c2.pending == Some(Entry(0, a)) &&
      a !in Records(c2.alarms)
  {
    var a := Alarm("07:30", "alarm.wav", "");
    var c0 := Clock([Entry(0, a)], None, None, true, true);
    assert ParseClock(a.time) == Some(450);
    assert Due(a, 7, 30);
    assert FirstMalformed(c0.alarms) == None;
    assert c0.alarms[..ScanEnd(c0.alarms)] == c0.alarms;
    var c1 := AfterTick(c0, Moment(7, 30));
    TickLemma(c0, Moment(7, 30), 1);
    PopConsistent(c1, 1, 0);
  }
}
