# Smart Alarm Clock — a Dafny model of its alarm engine, store and counters

The Smart Alarm Clock is a desktop alarm clock written in Python with tkinter.
Its core is the alarm engine, `SmartAlarmClock`, over a SQLite table of alarms.
The engine is a two-state machine: idle, or pending while the `alarm_triggered`
attribute is set.

- A polling loop compares the wall clock's hour and minute with every alarm's
  `"HH:MM"` time. It triggers the first alarm that matches, and only while
  nothing is pending.
- The prompt of a pending alarm offers Snooze and Stop.
  - Snooze moves the alarm five minutes later, in the store and in memory.
  - Stop deactivates it in the store and removes it from the in-memory list.
- The user interface adds alarms, deletes them, lists them, and runs a
  countdown timer and a stopwatch.

The model is in five modules, one file each:

| file | module | models |
|---|---|---|
| `clock_time.dfy` | `ClockTime` | `"HH:MM"` text: `strftime("%H:%M")`, `strptime(s, "%H:%M")`, `f"{n:02d}"`, the five-minute snooze with wrap past midnight |
| `alarm_store.dfy` | `AlarmStore` | the `alarms` table as a class over a sequence of rows, and its five statements |
| `engine.dfy` | `Engine` | `SmartAlarmClock`, both copies: the polling pass, trigger, snooze, stop, cleanup, closing |
| `alarm_list.dfy` | `AlarmList` | `set_alarm`, `delete_alarm` and `update_alarm_listbox`, which are the same statements in all three user interfaces |
| `counters.dfy` | `Counters` | the countdown timer and the stopwatch, with each interface's own start, pause, resume and reset |

The modelling choices:

- **Times.** A time of day is a minute of the day, 0 .. 1439.
  `ParseClock` follows Python's `%H` alternatives (`2[0-3]`, `[0-1]\d`, `\d`) and
  `%M` alternatives (`[0-5]\d`, `\d`), and requires the whole string to be
  consumed.
- **Store.** The table is a sequence of rows in rowid order. Rows are never
  removed. Ids are unique and increasing, and `snooze_count` stays 0.
- **In-memory alarms.** An alarm dict is an `Entry`. Its `ref` stands for the
  dict's object identity. `alarm["time"] = new_time` in the snooze rewrites
  that one dict. `in` and `list.remove` compare dicts by content.
- **Optional attributes.** An attribute that exists only after it is first
  assigned is an `Option` field (`None` means absent). This covers
  `alarm_triggered`, `timer_running`, `timer_seconds`, `stopwatch_running` and
  `stopwatch_seconds`.
- **Inputs.** The current time is a parameter of one loop pass (`Moment`). A
  spinbox value after `int()` is an `Option<int>` input, with `None` where
  `int()` raises ValueError. The listbox selection is an input too.
- **Audio.** Requests to the audio player are a ghost event log: play with
  gradual fade-in, stop, quit.
- **The polling thread.** `polling` says whether the thread is still inside
  its loop. A pass with `running` false ends the loop. A stored time that
  `strptime` rejects raises inside the thread and kills it; nothing catches it.
- **The two engine copies** differ, in the state the model keeps, only in `stop_alarm`. `StopAlarm` is the
  root copy, which has no membership check. `StopAlarmIfPresent` is the copy
  under `AlarmClock/src/core`, which removes the dict only if it is present.

Each state-changing method is tied to a value-level function of the old state.
`Tick` is tied to `AfterTick`, `Database.UpdateAlarmTime` to `Retimed`, and
`Countdown.Tick` to `TimerStep`. The lemmas about those functions cover
several steps in a row: no double trigger, the countdown running to completion,
and the store's load after an update.

## Model

| member | source | states |
|---|---|---|
| ClockTime.Decimal | src/ui/ui_components.py:138 | the decimal digits of a natural number: at least one digit, and a single digit exactly below 10 |
| ClockTime.Pad2 | src/ui/ui_components.py:138 | `f"{n:02d}"` is at least two characters: all digits for n >= 0, a minus sign and digits for n < 0 |
| ClockTime.TwoDigits | smart_alarm_clock.py:183 | `%H` and `%M` of `strftime` write two digits that read back as the number |
| ClockTime.FormatClock | smart_alarm_clock.py:183 | `strftime("%H:%M")` of a minute of the day is five characters with a colon in the middle |
| ClockTime.ParseMinute | smart_alarm_clock.py:100 | an accepted `%M` field is a minute below 60 |
| ClockTime.ParseClock | smart_alarm_clock.py:100 | an accepted `"%H:%M"` string denotes a minute of the day below 1440 |
| ClockTime.SnoozeTime | smart_alarm_clock.py:181-183 | the snoozed time is again a five-character `"HH:MM"` string |
| ClockTime.ValidatedTime | src/ui/ui_components.py:136-142 | a time string that passes the `strptime` check is accepted by `ParseClock` and begins with the padded hour |
| ClockTime.Pad2Small | src/ui/ui_components.py:138 | `f"{n:02d}"` is the two-digit zero-padded form for 0 .. 99 |
| ClockTime.ParseFormat | smart_alarm_clock.py:181-183 | `strptime` reads back exactly the minute that `strftime` wrote |
| ClockTime.FormatInjective | smart_alarm_clock.py:183 | two minutes of the day format to the same text if and only if they are equal |
| ClockTime.FormatParse | smart_alarm_clock.py:181-183 | a five-character string that `strptime` accepts is reproduced by formatting its value |
| ClockTime.SnoozeAdvances | smart_alarm_clock.py:181-183 | the snoozed time parses to the old minute plus 5, modulo 1440 |
| ClockTime.SnoozePastMidnight | AlarmClock/src/core/smart_alarm_clock.py:125-127 | 23:58 snoozes to 00:03, past midnight |
| ClockTime.SnoozeWithinHour | AlarmClock/src/core/smart_alarm_clock.py:125-127 | 10:00 snoozes to 10:05 |
| ClockTime.ParseHourField | src/ui/ui_components.py:138-139 | the hour field of `f"{hour:02d}:..."` is accepted exactly for 0 .. 23, negative and three-digit hours included |
| ClockTime.ParseMinuteField | src/ui/ui_components.py:138-139 | the minute field `f"{minute:02d}"` is accepted exactly for 0 .. 59, with that value |
| ClockTime.ValidatedTimeExact | src/ui/ui_components.py:136-142 | the `set_alarm` check succeeds if and only if 0 <= hour < 24 and 0 <= minute < 60; the text kept is then the zero-padded `"HH:MM"` of that time |
| AlarmStore.ActiveAlarms | AlarmClock/src/data/database.py:36-40 | the load never returns more alarms than there are rows |
| AlarmStore.Retimed | AlarmClock/src/data/database.py:42-47 | a time update keeps the number of rows |
| AlarmStore.Deactivated | AlarmClock/src/data/database.py:49-54 | a deactivation keeps the number of rows (rows are never removed) |
| AlarmStore.Database.constructor | AlarmClock/src/data/database.py:8-27 | `create_tables` on a fresh file gives an empty, consistent table whose first id will be 1 |
| AlarmStore.Database.SaveAlarm | AlarmClock/src/data/database.py:29-34 | appends exactly one row with the next id, the given time, sound path, note and `active` flag, and `snooze_count` 0; ids stay unique and increasing |
| AlarmStore.Database.LoadAlarms | AlarmClock/src/data/database.py:36-40 | the result is the active rows' `(time, sound_path, note)` in table order |
| AlarmStore.Database.UpdateAlarmTime | AlarmClock/src/data/database.py:42-47 | every row with the alarm's `(time, sound_path, note)`, active or not, gets the new time; every other row and field is unchanged |
| AlarmStore.Database.DeactivateAlarm | AlarmClock/src/data/database.py:49-54 | every row with the alarm's key gets `active = 0`; every other row and field is unchanged |
| AlarmStore.Database.DeleteAlarm | AlarmClock/src/data/database.py:56-61 | a soft delete with the same effect as `deactivate_alarm` |
| AlarmStore.ActiveAlarmsMembers | AlarmClock/src/data/database.py:39-40 | an alarm is loaded if and only if some active row projects to it (`Project`: the row's time, sound path and note as a dict) |
| AlarmStore.SaveThenLoad | AlarmClock/src/data/database.py:29-40 | after a save, the load is the earlier load followed by the saved alarm |
| AlarmStore.DeactivatedLoad | AlarmClock/src/data/database.py:49-54 | after deactivation, the load is the earlier load with every copy of the alarm left out; the rows hit are those whose `WHERE time = ? AND sound_path = ? AND note = ?` key (`Keyed`) matches |
| AlarmStore.WithoutRemoves | AlarmClock/src/data/database.py:49-54 | a deactivated alarm is no longer loaded, and every other alarm is loaded exactly when it was before |
| AlarmStore.DeactivateIdempotent | AlarmClock/src/data/database.py:49-54 | deactivating twice has the same effect as deactivating once |
| AlarmStore.RetimedLoad | AlarmClock/src/data/database.py:42-47 | after a time update, the load is the earlier load with every copy of the alarm shown at its new time; the rows hit are those whose key (`Keyed`) matches |
| AlarmStore.SaveDeactivateRoundTrip | AlarmClock/src/data/database.py:29-61 | a saved alarm is loaded, and once deactivated it is not |
| Engine.Message | AlarmClock/src/core/smart_alarm_clock.py:82 | the prompt text is never empty: it is the note when the note is non-empty, and `'Time to wake up!'` when it is empty |
| Engine.Due | smart_alarm_clock.py:100-103 | an alarm is due only at a real hour (0 .. 23) and minute (0 .. 59) |
| Engine.FirstMalformed | smart_alarm_clock.py:99-100 | the index of the first alarm whose time `strptime` rejects, with every earlier time accepted |
| Engine.FirstDue | smart_alarm_clock.py:99-104 | the index of the first alarm whose hour and minute are the current ones, with no earlier match |
| Engine.Fire | smart_alarm_clock.py:99-106 | what a pass triggers is one of the list's dicts and is due now; if nothing, no alarm before the first malformed time is due |
| Engine.Fired | smart_alarm_clock.py:98-106 | a pass triggers a dict of the list, and only while nothing is pending and the loop runs; the dict is due now |
| Engine.AfterTick | smart_alarm_clock.py:97-106 | a pass leaves the list and `running` alone, keeps a pending alarm and its prompt, and keeps polling exactly when the loop ran and no stored time was malformed |
| Engine.ScanEnd | smart_alarm_clock.py:99-100 | a pass gets no further than the end of the list |
| Engine.SmartAlarmClock.constructor | AlarmClock/src/core/smart_alarm_clock.py:11-34 | the in-memory list is the store's active alarms in order; nothing is pending; the loop runs |
| Engine.SmartAlarmClock.TriggerAlarm | smart_alarm_clock.py:110-172 | shows the note-or-default message and requests the alarm's sound with a gradual fade-in; nothing else changes |
| Engine.SmartAlarmClock.Tick | smart_alarm_clock.py:95-108 | one pass of `while self.running` is `AfterTick` of the old state, and the audio log grows by exactly that pass's `Play` events; the invariant is kept |
| Engine.SmartAlarmClock.ScanAlarms | smart_alarm_clock.py:99-106 | the `for alarm in self.alarms` pass triggers the first due alarm while nothing is pending, and ends the thread at the first time `strptime` rejects; its effect is again `AfterTick` |
| Engine.SmartAlarmClock.CheckAlarm | smart_alarm_clock.py:100-106 | one alarm of the pass: reports whether its time parses, and triggers it exactly when it is due and nothing is pending yet |
| Engine.SmartAlarmClock.CleanupAlarm | smart_alarm_clock.py:201-205 | closes the prompt and deletes `alarm_triggered`, returning the engine to idle; raises exactly when nothing was pending |
| Engine.SmartAlarmClock.SnoozeAlarm | smart_alarm_clock.py:174-189 | with nothing pending, nothing changes. Otherwise it stops the sound, retimes the store rows keyed by the old time, rewrites the time of the pending dict only, and returns to idle |
| Engine.SmartAlarmClock.StopAlarm | smart_alarm_clock.py:191-199 | with nothing pending, nothing changes. Otherwise it stops the sound and deactivates by key. If the content is still in the list, the first equal dict is removed and the engine returns to idle; if not, it raises, and the alarm and its prompt stay |
| Engine.SmartAlarmClock.StopAlarmIfPresent | AlarmClock/src/core/smart_alarm_clock.py:136-146 | the same, but the dict is removed only if present, so the engine always returns to idle |
| Engine.SmartAlarmClock.OnClosing | smart_alarm_clock.py:207-216 | `running` becomes false; a pending alarm's sound is stopped and its prompt closed; the player is released |
| Engine.TickLemma | smart_alarm_clock.py:95-108 | a pass keeps the engine invariant: identities distinct, and a pending dict well-formed and the first of its content in the list |
| Engine.FiredIsFirstDue | smart_alarm_clock.py:98-106 | a pass triggers only while nothing is pending and the loop runs, and only the first alarm, before any malformed one, whose hour and minute are the current ones |
| Engine.DueFires | AlarmClock/src/core/smart_alarm_clock.py:43-51 | conversely, an idle running pass triggers the first matching alarm that comes before any malformed time, and requests its sound |
| Engine.DueAtMinute | smart_alarm_clock.py:100-104 | the loop's hour-and-minute test is equality of the minute of the day, with seconds ignored |
| Engine.PendingIsSticky | smart_alarm_clock.py:104-106 | while an alarm is pending, any number of passes leave it, its prompt, the list and the audio alone |
| Engine.AtMostOneTrigger | smart_alarm_clock.py:95-108 | with no acknowledgement in between, any run of passes requests at most one alarm sound, and none if an alarm is already pending |
| Engine.ClosedLoopEnds | smart_alarm_clock.py:97 | once `running` is false, the next pass ends the loop and no pass triggers anything |
| Engine.RemoveFirstTakesPending | smart_alarm_clock.py:197 | under the engine invariant, `list.remove` on the pending alarm's content removes exactly the pending dict |
| Engine.RemoveFirstDropsFirst | smart_alarm_clock.py:197 | `list.remove` drops exactly the first dict with that content and keeps the order of the rest |
| Engine.RemoveFirst | smart_alarm_clock.py:197 | `list.remove` shortens the list by one when the content is present and leaves it as it was when absent; no dict is added |
| Engine.RecordsSnoc | src/ui/ui_components.py:148 | appending a dict appends its content to the list's contents |
| Engine.AppendConsistent | src/ui/ui_components.py:148 | appending a dict with a new identity keeps the engine invariant |
| Engine.PopConsistent | src/ui/ui_components.py:176 | popping any index keeps the engine invariant, including while an alarm is pending |
| Engine.Snoozed | smart_alarm_clock.py:187 | the in-place time assignment keeps the list's length and every dict's identity |
| Engine.SnoozedOnlyRetimes | smart_alarm_clock.py:187 | the in-place snooze changes the time of the one pending dict only; sound, note, identities and other dicts are untouched |
| AlarmList.DisplayText | src/ui/ui_components.py:163 | a listbox line starts with the time and ends with `" - "` and the note; it is the bare time exactly when the note is empty |
| AlarmList.UpdateAlarmListbox | src/ui/ui_components.py:158-164 | one line per alarm, in `app.alarms` order |
| AlarmList.SaveAndAppend | src/ui/ui_components.py:147-148 | saves one active row and appends the same alarm as a new dict; the store's load and the list both gain that alarm at the end |
| AlarmList.SetAlarm | src/ui/ui_components.py:133-156 | succeeds exactly for hour 0 .. 23 and minute 0 .. 59 and then saves and appends the zero-padded alarm; otherwise neither the store nor the list changes (modern_ui.py:305-329 and src/ui/modern_ui.py:314-338 are the same) |
| AlarmList.DeleteAlarm | src/ui/ui_components.py:166-177 | no selection changes nothing; otherwise the selected alarm is deactivated by key and exactly that index is popped, keeping the order of the rest (modern_ui.py:338-349 and src/ui/modern_ui.py:347-358 are the same) |
| AlarmList.DeleteWhilePending | smart_alarm_clock.py:191-199 | a reachable state, from a consistent start, in which the pending dict is no longer in the list: triggered at 07:30, then deleted |
| Counters.Split | src/ui/ui_components.py:195-197 | hours, minutes and seconds recombine to the count, with minutes and seconds below 60 |
| Counters.HmsText | src/ui/ui_components.py:198 | for a split count the display ends in `":MM:SS"`, whose digits read back as the minutes and the seconds; below 100 hours it starts with the hours' two digits |
| Counters.DisplayWidth | src/ui/ui_components.py:198 | below 100 hours the display is eight characters, `"HH:MM:SS"` |
| Counters.TimerStep | src/ui/ui_components.py:193-206 | a tick does nothing unless running; with no count it fails; a positive count is shown split and decremented; otherwise the countdown finishes with the flag down and the count kept |
| Counters.WatchStep | src/ui/ui_components.py:222-227 | a tick does nothing unless running; with no count it fails; otherwise the count is shown split and incremented, and the stopwatch never finishes |
| Counters.CountdownCompletes | src/ui/ui_components.py:191-206 | a running countdown from s shows s, s - 1, ..., 1, then completes with the count at 0 and `timer_running` false |
| Counters.NonPositiveCompletesAtOnce | modern_ui.py:368-378 | a countdown of zero or fewer seconds completes on its first tick |
| Counters.StopwatchCountsUp | src/ui/ui_components.py:220-228 | a running stopwatch adds one per tick and shows each count |
| Counters.PausedTimerStays | modern_ui.py:407-413 | a paused timer does not move, whatever ticks arrive |
| Counters.PausedWatchStays | modern_ui.py:433-439 | a paused stopwatch does not move, whatever ticks arrive |
| Counters.Countdown.constructor | src/ui/ui_components.py:182-183 | before any start, `timer_seconds` and `timer_running` do not exist |
| Counters.Countdown.Tick | src/ui/ui_components.py:191-202 | one `update_timer` is one `TimerStep`: show and decrement while positive, complete at zero, nothing while stopped |
| Counters.Countdown.Complete | src/ui/ui_components.py:204-210 | `timer_running` becomes false and the count is kept |
| Counters.Countdown.StartMinutes | src/ui/ui_components.py:179-189 | a valid entry sets the count to minutes * 60 and runs a first tick; an invalid one changes nothing |
| Counters.Countdown.StartHms | modern_ui.py:351-364 | valid spinboxes set the count to h * 3600 + m * 60 + s and run a first tick; an invalid one changes nothing (src/ui/modern_ui.py:360-372 is the same) |
| Counters.Countdown.Pause | modern_ui.py:407-413 | `timer_running` becomes false and the count is kept |
| Counters.Countdown.Halt | smart_alarm_clock.py:218-223 | `timer_running` becomes false only if it exists; nothing else changes (AlarmClock/src/core/smart_alarm_clock.py:165-168 is the same) |
| Counters.Countdown.Resume | modern_ui.py:415-422 | the countdown goes on from the kept count |
| Counters.Countdown.Reset | modern_ui.py:424-431 | the count becomes 0 and the timer is stopped |
| Counters.Stopwatch.constructor | src/ui/ui_components.py:212-217 | before any start, `stopwatch_seconds` and `stopwatch_running` do not exist |
| Counters.Stopwatch.Tick | src/ui/ui_components.py:220-228 | one `update_stopwatch` is one `WatchStep`: show and add one while running, nothing while stopped |
| Counters.Stopwatch.StartFromZero | src/ui/ui_components.py:212-218 | the count always restarts at 0, then a first tick runs |
| Counters.Stopwatch.StartKeepingCount | modern_ui.py:388-395 | an existing non-zero count is kept, an absent one becomes 0, then a first tick runs (src/ui/modern_ui.py:395-403 is the same) |
| Counters.Stopwatch.Pause | modern_ui.py:433-439 | `stopwatch_running` becomes false and the count is kept (src/ui/modern_ui.py:415-420 is the same) |
| Counters.Stopwatch.Halt | smart_alarm_clock.py:225-230 | `stopwatch_running` becomes false only if it exists; nothing else changes (AlarmClock/src/core/smart_alarm_clock.py:170-173 is the same) |
| Counters.Stopwatch.Resume | modern_ui.py:441-448 | the stopwatch goes on from the kept count (src/ui/modern_ui.py:422-428 is the same) |
| Counters.Stopwatch.Reset | src/ui/ui_components.py:230-236 | the count becomes 0 and the stopwatch is stopped (modern_ui.py:450-457 and src/ui/modern_ui.py:430-437 are the same) |

## Left out

- Threads and timing are not modelled. The polling loop's thread, `time.sleep(1)` and `datetime.now()` become one pass per call of `Tick` at a given `Moment`. The race between that thread and the interface's callbacks is not modelled: each pass and each callback is atomic.
- The `root.after(1000, ...)` scheduling of the timer and stopwatch is abstracted to one call per tick. A resume while an earlier chain is still scheduled starts a second chain and doubles the rate; the model does not capture that.
- Widgets, window geometry, themes, `messagebox` and `filedialog` calls are left out. Their outcomes are inputs: spinbox values, the selection, the sound path, the note. The listbox refresh is modelled only by `update_alarm_listbox`; its calls inside the snooze and the stop leave no state in the model.
- The audio player (`src/utils/audio_manager.py`) is reduced to events: play with a gradual flag, stop, quit. The volume fade and the fallback to the default sound are not modelled.
- `timer_complete` playing `default_alarm.wav` is shown only by the `Finished` tick result, not as an audio event.
- SQLite connections, `commit` and `close` are not modelled. The `settings` table in `create_tables` is never used by the core and is left out.
- The store starts empty. A database file that already holds rows is not modelled: the constructor is `create_tables` on a fresh file.
- The rows returned by `SELECT ... WHERE active = 1` are taken in rowid order. SQLite does not promise an order without `ORDER BY`.
- ParseClock accepts only ASCII digits. Python's `\d` in `strptime` and `int()` also accept other Unicode decimal digits.
- The git helpers (`src/utils/git_manager.py`, `AlarmClock/src/ui/git_control_panel.py`), `create_default_sound.py`, `constants.py` and both `main.py` files are not part of this model. They are outside the alarm logic.
- The timer's and stopwatch's display text is stated by `Split`, `HmsText` and `DisplayWidth`. The widget update itself is not modelled.

## Findings

| source | as written | input that shows it | evidently intended | confidence | as-written member | corrected member |
|---|---|---|---|---|---|---|
| smart_alarm_clock.py:196-197 | `stop_alarm` calls `self.alarms.remove(alarm)` with no membership check. The alarm prompt does not block the main window, so the pending alarm can be deleted from the list while the prompt is open; `remove` then raises ValueError. The cleanup never runs, so `alarm_triggered` stays set and the prompt stays open. The loop triggers no other alarm until Snooze is pressed on that prompt, the window is closed, or an alarm with the same time, sound and note is added again so that a later Stop Alarm's `remove` succeeds. | alarm `07:30` triggered at 07:30, then Delete on that alarm, then Stop Alarm | remove only if present, then clean up, as AlarmClock/src/core/smart_alarm_clock.py:142-143 does | not executed | Engine.SmartAlarmClock.StopAlarm (its `NotInList` outcome), with AlarmList.DeleteWhilePending reaching the state | Engine.SmartAlarmClock.StopAlarmIfPresent |
