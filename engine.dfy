/** The alarm engine, `SmartAlarmClock`: the in-memory alarm list, the polling
    loop that triggers an alarm when the wall clock reaches its time, and the
    snooze/stop acknowledgement of the one pending alarm. Both copies of the
    class are modelled here; in the state the model keeps they differ only in
    `stop_alarm` (see StopAlarm and StopAlarmIfPresent). */
module Engine {
  import opened ClockTime
  import opened AlarmStore

  /** One alarm dict of `self.alarms`. `ref` stands for the dict's object
      identity: the snooze rewrites the time of that very dict, while `in` and
      `list.remove` compare dicts by content (`alarm`). */
  datatype Entry = Entry(ref: nat, alarm: Alarm)

  /** Requests made to the audio player. */
  datatype AudioEvent = Play(path: string, gradual: bool) | Silence | Shutdown

  /** The engine's state as the polling loop and the acknowledgements see it.
      `pending` is the `alarm_triggered` attribute (None when it is absent),
      `dialog` the text of the alarm prompt on screen, `running` the loop flag
      and `polling` whether the polling thread is still inside its loop. */
  datatype Clock = Clock(alarms: seq<Entry>, pending: Option<Entry>, dialog: Option<string>,
                         running: bool, polling: bool)

  datatype Moment = Moment(hour: int, minute: int)

  datatype StopOutcome = NotPending | Stopped | NotInList

  const DefaultMessage: string := "Time to wake up!"

  /** The text of the alarm prompt: the note, or the default message for an empty note. */
  function Message(a: Alarm): (m: string)
    ensures m != ""
    ensures a.note != "" ==> m == a.note
    ensures a.note == "" ==> m == DefaultMessage
  {
    if a.note != "" then a.note else DefaultMessage
  }

  function Records(es: seq<Entry>): seq<Alarm>
  {
    seq(|es|, i requires 0 <= i < |es| => es[i].alarm)
  }

  /** The loop's test: `strptime(alarm["time"], "%H:%M")` gives this hour and minute. */
  predicate Due(a: Alarm, hour: int, minute: int)
    ensures Due(a, hour, minute) ==> 0 <= hour < 24 && 0 <= minute < 60
  {
    var t := ParseClock(a.time);
    t.Some? && t.value / 60 == hour && t.value % 60 == minute
  }

  /** The first alarm whose time `strptime` rejects, if there is one. */
  function FirstMalformed(es: seq<Entry>): (r: Option<nat>)
    ensures r.Some? ==> r.value < |es| && ParseClock(es[r.value].alarm.time).None?
    ensures forall j :: 0 <= j < |es| && (r.None? || j < r.value) ==> ParseClock(es[j].alarm.time).Some?
  {
    if es == [] then None
    else if ParseClock(es[0].alarm.time).None? then Some(0)
    else match FirstMalformed(es[1..])
      case None => None
      case Some(k) => Some(k + 1)
  }

  /** The first alarm due at this hour and minute, if there is one. */
  function FirstDue(es: seq<Entry>, hour: int, minute: int): (r: Option<nat>)
    ensures r.Some? ==> r.value < |es| && Due(es[r.value].alarm, hour, minute)
    ensures forall j :: 0 <= j < |es| && (r.None? || j < r.value) ==> !Due(es[j].alarm, hour, minute)
  {
    if es == [] then None
    else if Due(es[0].alarm, hour, minute) then Some(0)
    else match FirstDue(es[1..], hour, minute)
      case None => None
      case Some(k) => Some(k + 1)
  }

  /** How far one pass of the loop gets: to the first malformed time, where
      `strptime` raises and the thread dies, or to the end of the list. */
  function ScanEnd(es: seq<Entry>): (n: nat)
    ensures n <= |es|
  {
    match FirstMalformed(es)
    case None => |es|
    case Some(k) => k
  }

  /** The alarm one pass finds due, before the pass stops. */
  function Fire(es: seq<Entry>, hour: int, minute: int): (r: Option<Entry>)
    ensures r.Some? ==> r.value in es && Due(r.value.alarm, hour, minute)
    ensures r.None? ==> forall j :: 0 <= j < ScanEnd(es) ==> !Due(es[j].alarm, hour, minute)
  {
    match FirstDue(es[..ScanEnd(es)], hour, minute)
    case None => None
    case Some(k) => Some(es[k])
  }

  /** The alarm a pass of the loop triggers: none while one is pending, and
      none once the loop has ended. */
  function Fired(c: Clock, now: Moment): (r: Option<Entry>)
    ensures r.Some? ==> c.pending.None? && c.running && c.polling && r.value in c.alarms
    ensures r.Some? ==> Due(r.value.alarm, now.hour, now.minute)
  {
    if !c.polling || !c.running || c.pending.Some? then None else Fire(c.alarms, now.hour, now.minute)
  }

  /** One iteration of `while self.running`: end the loop if the flag is down,
      otherwise scan the list, trigger at most one alarm, and die on a
      malformed time. */
  function AfterTick(c: Clock, now: Moment): (r: Clock)
    ensures r.alarms == c.alarms && r.running == c.running
    ensures c.pending.Some? ==> r.pending == c.pending && r.dialog == c.dialog
    ensures r.pending.Some? ==> r.pending.value in c.alarms || r.pending == c.pending
    ensures r.polling <==> c.polling && c.running && FirstMalformed(c.alarms).None?
  {
    if !c.polling || !c.running then c.(polling := false)
    else
      var f := Fired(c, now);
      c.(pending := if f.Some? then f else c.pending,
         dialog := if f.Some? then Some(Message(f.value.alarm)) else c.dialog,
         polling := FirstMalformed(c.alarms).None?)
  }

  /** The state part way through a pass, after the first `i` alarms. */
  ghost function Scanned(c: Clock, now: Moment, i: nat): Clock
    requires i <= |c.alarms|
  {
    if c.pending.Some? then c
    else match FirstDue(c.alarms[..i], now.hour, now.minute)
      case None => c
      case Some(k) => c.(pending := Some(c.alarms[k]), dialog := Some(Message(c.alarms[k].alarm)))
  }

  ghost function ScannedSounds(c: Clock, now: Moment, i: nat): seq<AudioEvent>
    requires i <= |c.alarms|
  {
    if c.pending.Some? then []
    else match FirstDue(c.alarms[..i], now.hour, now.minute)
      case None => []
      case Some(k) => [Play(c.alarms[k].alarm.soundPath, true)]
  }

  function TickSounds(c: Clock, now: Moment): seq<AudioEvent>
  {
    match Fired(c, now)
    case None => []
    case Some(e) => [Play(e.alarm.soundPath, true)]
  }

  /** Successive passes of the loop, one per moment. */
  function Ticks(c: Clock, moments: seq<Moment>): Clock
    decreases |moments|
  {
    if moments == [] then c else Ticks(AfterTick(c, moments[0]), moments[1..])
  }

  function TicksSounds(c: Clock, moments: seq<Moment>): seq<AudioEvent>
    decreases |moments|
  {
    if moments == [] then [] else TickSounds(c, moments[0]) + TicksSounds(AfterTick(c, moments[0]), moments[1..])
  }

  /** `self.alarms` after `alarm["time"] = new_time` on the dict `ref`. */
  function Snoozed(es: seq<Entry>, ref: nat, newTime: string): (r: seq<Entry>)
    ensures |r| == |es| && forall i :: 0 <= i < |es| ==> r[i].ref == es[i].ref
  {
    seq(|es|, i requires 0 <= i < |es| =>
      if es[i].ref == ref then es[i].(alarm := es[i].alarm.(time := newTime)) else es[i])
  }

  /** `list.remove(alarm)`: drop the first dict equal to `a`. */
  function RemoveFirst(es: seq<Entry>, a: Alarm): (r: seq<Entry>)
    ensures a in Records(es) ==> |r| == |es| - 1
    ensures a !in Records(es) ==> r == es
    ensures forall e :: e in r ==> e in es
  {
    assert es != [] ==> Records(es) == [es[0].alarm] + Records(es[1..]);
    if es == [] then []
    else if es[0].alarm == a then es[1..]
    else [es[0]] + RemoveFirst(es[1..], a)
  }

  /** The pending dict, wherever it still is in the list, is unchanged and is
      the first dict of its content, so structural removal finds it. */
  ghost predicate PendingFirst(es: seq<Entry>, p: Entry)
  {
    forall k :: 0 <= k < |es| && es[k].ref == p.ref ==>
      es[k] == p && forall j :: 0 <= j < k ==> es[j].alarm != p.alarm
  }

  /** The engine's invariant: dict identities are distinct and allocated, and a
      pending alarm has a time `strptime` accepts and is found first by content. */
  ghost predicate Consistent(c: Clock, nextRef: nat)
  {
    (forall i, j :: 0 <= i < j < |c.alarms| ==> c.alarms[i].ref != c.alarms[j].ref) &&
    (forall i :: 0 <= i < |c.alarms| ==> c.alarms[i].ref < nextRef) &&
    (c.pending.Some? ==>
      c.pending.value.ref < nextRef && ParseClock(c.pending.value.alarm.time).Some? &&
      PendingFirst(c.alarms, c.pending.value))
  }

  class SmartAlarmClock {
    const db: Database
    var alarms: seq<Entry>
    var pending: Option<Entry>
    var dialog: Option<string>
    var running: bool
    var polling: bool
    /** The identity the next new alarm dict gets. */
    var nextRef: nat
    ghost var audio: seq<AudioEvent>

    function State(): Clock
      reads this
    {
      Clock(alarms, pending, dialog, running, polling)
    }

    ghost predicate Valid()
      reads this, db
    {
      db.Valid() && Consistent(State(), nextRef)
    }

    /** `__init__`: load the active alarms and start the polling loop. */
    constructor (store: Database)
      requires store.Valid()
      ensures Valid() && db == store
      ensures Records(alarms) == ActiveAlarms(store.rows)
      ensures pending.None? && dialog.None? && running && polling && audio == []
    {
      var loaded := store.LoadAlarms();
      db := store;
      alarms := seq(|loaded|, i requires 0 <= i < |loaded| => Entry(i, loaded[i]));
      nextRef := |loaded|;
      pending := None;
      dialog := None;
      running := true;
      polling := true;
      audio := [];
    }

    /** `trigger_alarm`: show the prompt and start the sound with a gradual fade-in. */
    method TriggerAlarm(e: Entry)
      modifies this
      ensures dialog == Some(Message(e.alarm))
      ensures audio == old(audio) + [Play(e.alarm.soundPath, true)]
      ensures alarms == old(alarms) && pending == old(pending) && running == old(running)
      ensures polling == old(polling) && nextRef == old(nextRef)
    {
      dialog := Some(Message(e.alarm));
      audio := audio + [Play(e.alarm.soundPath, true)];
    }

    /** One iteration of `while self.running` in `check_alarms`, at the
        wall-clock time `now`. */
    method Tick(now: Moment)
      requires Valid()
      modifies this
      ensures Valid()
      ensures State() == AfterTick(old(State()), now)
      ensures audio == old(audio) + TickSounds(old(State()), now)
      ensures nextRef == old(nextRef)
    {
      if !polling || !running {
        polling := false;
        return;
      }
      ScanAlarms(now);
    }

    /** The body of that loop, `for alarm in self.alarms`: check each alarm in
        turn, and stop the thread at a time `strptime` rejects. */
    method ScanAlarms(now: Moment)
      requires running && polling && Consistent(State(), nextRef)
      modifies this
      ensures Consistent(State(), nextRef)
      ensures State() == AfterTick(old(State()), now)
      ensures audio == old(audio) + TickSounds(old(State()), now)
      ensures nextRef == old(nextRef)
    {
      ghost var c := State();
      var i := 0;
      while i < |alarms|
        invariant 0 <= i <= |alarms|
        invariant alarms == c.alarms && nextRef == old(nextRef)
        invariant forall j :: 0 <= j < i ==> ParseClock(alarms[j].alarm.time).Some?
        invariant State() == Scanned(c, now, i) && audio == old(audio) + ScannedSounds(c, now, i)
      {
        var wellFormed := CheckAlarm(i, now, c, old(audio));
        if !wellFormed {
          assert FirstMalformed(alarms) == Some(i);
          ScanCrash(c, now, i);
          polling := false;
          TickLemma(c, now, nextRef);
          return;
        }
        i := i + 1;
      }
      ScanDone(c, now);
      TickLemma(c, now, nextRef);
    }

    /** One alarm of that loop: parse its time (`strptime` raises on a
        malformed one), and trigger it if its hour and minute are the current
        ones and nothing is pending. */
    method CheckAlarm(i: nat, now: Moment, ghost c: Clock, ghost start: seq<AudioEvent>) returns (wellFormed: bool)
      requires i < |c.alarms| && State() == Scanned(c, now, i) && audio == start + ScannedSounds(c, now, i)
      modifies this
      ensures wellFormed == ParseClock(c.alarms[i].alarm.time).Some?
      ensures wellFormed ==> State() == Scanned(c, now, i + 1) && audio == start + ScannedSounds(c, now, i + 1)
      ensures !wellFormed ==> State() == old(State()) && audio == old(audio)
      ensures nextRef == old(nextRef)
    {
      var t := ParseClock(alarms[i].alarm.time);
      if t.None? {
        return false;
      }
      ScanStep(c, now, i);
      if t.value / 60 == now.hour && t.value % 60 == now.minute && pending.None? {
        pending := Some(alarms[i]);
        TriggerAlarm(alarms[i]);
      }
      wellFormed := true;
    }

    /** `cleanup_alarm`: close the prompt, then delete `alarm_triggered`
        (`delattr` raises when the attribute is already gone). */
    method CleanupAlarm() returns (raised: bool)
      modifies this
      ensures raised == old(pending).None?
      ensures pending.None? && dialog.None?
      ensures alarms == old(alarms) && running == old(running) && polling == old(polling)
      ensures nextRef == old(nextRef) && audio == old(audio)
    {
      dialog := None;
      raised := pending.None?;
      pending := None;
    }

    /** `snooze_alarm`: silence, move the pending alarm five minutes later in the
        store (rows found by the old time) and in its dict, and return to idle. */
    method SnoozeAlarm()
      requires Valid()
      modifies this, db
      ensures Valid() && nextRef == old(nextRef) && db.nextId == old(db.nextId)
      ensures running == old(running) && polling == old(polling)
      ensures old(pending).None? ==>
        State() == old(State()) && db.rows == old(db.rows) && audio == old(audio)
      ensures old(pending).Some? ==>
        var p := old(pending).value;
        var t := SnoozeTime(p.alarm.time);
        db.rows == Retimed(old(db.rows), p.alarm, t) &&
        alarms == Snoozed(old(alarms), p.ref, t) &&
        pending.None? && dialog.None? && audio == old(audio) + [Silence]
    {
      if pending.Some? {
        audio := audio + [Silence];
        var p := pending.value;
        var newTime := SnoozeTime(p.alarm.time);
        db.UpdateAlarmTime(p.alarm, newTime);
        alarms := Snoozed(alarms, p.ref, newTime);
        var raised := CleanupAlarm();
      }
    }

    /** `stop_alarm` of smart_alarm_clock.py: silence, deactivate in the store,
        then `self.alarms.remove(alarm)` without checking membership. When the
        dict is no longer in the list, `remove` raises ValueError and the
        cleanup never runs: the alarm stays pending and its prompt stays open. */
    method StopAlarm() returns (outcome: StopOutcome)
      requires Valid()
      modifies this, db
      ensures Valid() && nextRef == old(nextRef) && db.nextId == old(db.nextId)
      ensures running == old(running) && polling == old(polling)
      ensures outcome == NotPending <==> old(pending).None?
      ensures old(pending).None? ==>
        State() == old(State()) && db.rows == old(db.rows) && audio == old(audio)
      ensures old(pending).Some? ==>
        var p := old(pending).value;
        db.rows == Deactivated(old(db.rows), p.alarm) && audio == old(audio) + [Silence] &&
        if p.alarm in Records(old(alarms)) then
          outcome == Stopped && alarms == RemoveFirst(old(alarms), p.alarm) && pending.None? && dialog.None?
        else
          outcome == NotInList && alarms == old(alarms) && pending == old(pending) && dialog == old(dialog)
    {
      if pending.None? {
        return NotPending;
      }
      audio := audio + [Silence];
      var p := pending.value;
      db.DeactivateAlarm(p.alarm);
      if p.alarm !in Records(alarms) {
        return NotInList;
      }
      ghost var c := State();
      var k := RemoveFirstIsPop(alarms, p.alarm);
      PopConsistent(c, nextRef, k);
      alarms := RemoveFirst(alarms, p.alarm);
      assert State() == c.(alarms := c.alarms[..k] + c.alarms[k + 1..]);
      var raised := CleanupAlarm();
      assert db.Valid() && Consistent(State(), nextRef);
      outcome := Stopped;
    }

    /** `stop_alarm` of AlarmClock/src/core/smart_alarm_clock.py: the same, but
        the dict is removed only `if alarm in self.alarms`, so the engine always
        returns to idle. */
    method StopAlarmIfPresent() returns (outcome: StopOutcome)
      requires Valid()
      modifies this, db
      ensures Valid() && nextRef == old(nextRef) && db.nextId == old(db.nextId)
      ensures running == old(running) && polling == old(polling)
      ensures outcome != NotInList
      ensures outcome == NotPending <==> old(pending).None?
      ensures pending.None?
      ensures old(pending).None? ==>
        State() == old(State()) && db.rows == old(db.rows) && audio == old(audio)
      ensures old(pending).Some? ==>
        var p := old(pending).value;
        db.rows == Deactivated(old(db.rows), p.alarm) && audio == old(audio) + [Silence] &&
        dialog.None? &&
        alarms == if p.alarm in Records(old(alarms)) then RemoveFirst(old(alarms), p.alarm) else old(alarms)
    {
      if pending.None? {
        return NotPending;
      }
      audio := audio + [Silence];
      var p := pending.value;
      db.DeactivateAlarm(p.alarm);
      if p.alarm in Records(alarms) {
        ghost var c := State();
        var k := RemoveFirstIsPop(alarms, p.alarm);
        PopConsistent(c, nextRef, k);
        alarms := RemoveFirst(alarms, p.alarm);
        assert State() == c.(alarms := c.alarms[..k] + c.alarms[k + 1..]);
      }
      var raised := CleanupAlarm();
      assert db.Valid() && Consistent(State(), nextRef);
      outcome := Stopped;
    }

    /** `on_closing`: lower the loop flag; silence and close the prompt of a
        pending alarm (which stays pending); release the audio player. */
    method OnClosing()
      requires Valid()
      modifies this
      ensures Valid()
      ensures !running
      ensures alarms == old(alarms) && pending == old(pending) && polling == old(polling)
      ensures nextRef == old(nextRef)
      ensures dialog == if old(pending).Some? then None else old(dialog)
      ensures audio == old(audio) + (if old(pending).Some? then [Silence] else []) + [Shutdown]
    {
      running := false;
      if pending.Some? {
        audio := audio + [Silence];
        dialog := None;
      }
      audio := audio + [Shutdown];
    }
  }

  // ---------------------------------------------------------------------------
  // Lemmas

  lemma {:induction false} FirstDueSnoc(es: seq<Entry>, x: Entry, hour: int, minute: int)
    ensures FirstDue(es + [x], hour, minute) ==
      if FirstDue(es, hour, minute).Some? then FirstDue(es, hour, minute)
      else if Due(x.alarm, hour, minute) then Some(|es|)
      else None
    decreases |es|
  {
    if es != [] {
      assert (es + [x])[0] == es[0];
      assert (es + [x])[1..] == es[1..] + [x];
      FirstDueSnoc(es[1..], x, hour, minute);
    }
  }

  /** One more alarm scanned: it triggers exactly when it is due and nothing is pending yet. */
  lemma ScanStep(c: Clock, now: Moment, i: nat)
    requires i < |c.alarms|
    ensures
      var d := Scanned(c, now, i);
      var e := c.alarms[i];
      if Due(e.alarm, now.hour, now.minute) && d.pending.None? then
        Scanned(c, now, i + 1) == d.(pending := Some(e), dialog := Some(Message(e.alarm))) &&
        ScannedSounds(c, now, i + 1) == ScannedSounds(c, now, i) + [Play(e.alarm.soundPath, true)]
      else
        Scanned(c, now, i + 1) == d && ScannedSounds(c, now, i + 1) == ScannedSounds(c, now, i)
  {
    assert c.alarms[..i + 1] == c.alarms[..i] + [c.alarms[i]];
    FirstDueSnoc(c.alarms[..i], c.alarms[i], now.hour, now.minute);
  }

  /** A pass over well-formed times is the scan of the whole list. */
  lemma ScanDone(c: Clock, now: Moment)
    requires c.running && c.polling && FirstMalformed(c.alarms).None?
    ensures AfterTick(c, now) == Scanned(c, now, |c.alarms|)
    ensures TickSounds(c, now) == ScannedSounds(c, now, |c.alarms|)
  {
    assert c.alarms[..|c.alarms|] == c.alarms;
  }

  /** A pass that reaches a malformed time stops there, and the thread ends. */
  lemma ScanCrash(c: Clock, now: Moment, i: nat)
    requires c.running && c.polling && FirstMalformed(c.alarms) == Some(i)
    ensures AfterTick(c, now) == Scanned(c, now, i).(polling := false)
    ensures TickSounds(c, now) == ScannedSounds(c, now, i)
  {
  }

  /** The invariant holds after a pass of the loop. */
  lemma TickLemma(c: Clock, now: Moment, nextRef: nat)
    requires Consistent(c, nextRef)
    ensures Consistent(AfterTick(c, now), nextRef)
  {
    var f := Fired(c, now);
    if f.Some? {
      var es := c.alarms;
      var n := ScanEnd(es);
      var k := FirstDue(es[..n], now.hour, now.minute).value;
      assert f.value == es[k];
      forall m | 0 <= m < |es| && es[m].ref == es[k].ref
        ensures es[m] == es[k] && forall j :: 0 <= j < m ==> es[j].alarm != es[k].alarm
      {
        assert m == k;
        forall j | 0 <= j < m ensures es[j].alarm != es[k].alarm {
          assert es[..n][j] == es[j] && es[..n][k] == es[k];
        }
      }
    }
  }

  /** A pass triggers an alarm only while nothing is pending and the loop runs,
      and only the first alarm (before any malformed one) whose hour and minute
      are the current ones. */
  lemma FiredIsFirstDue(c: Clock, now: Moment)
    requires Fired(c, now).Some?
    ensures c.pending.None? && c.running && c.polling
    ensures exists k :: (0 <= k < ScanEnd(c.alarms) && Fired(c, now) == Some(c.alarms[k]) &&
      Due(c.alarms[k].alarm, now.hour, now.minute) &&
      forall j :: 0 <= j < k ==> !Due(c.alarms[j].alarm, now.hour, now.minute))
  {
    var es := c.alarms;
    var n := ScanEnd(es);
    var k := FirstDue(es[..n], now.hour, now.minute).value;
    assert es[..n][k] == es[k];
    forall j | 0 <= j < k ensures !Due(es[j].alarm, now.hour, now.minute) {
      assert es[..n][j] == es[j];
    }
  }

  /** Conversely, an idle running loop over well-formed times triggers the
      first alarm of the current hour and minute. */
  lemma DueFires(c: Clock, now: Moment, k: nat)
    requires c.pending.None? && c.running && c.polling
    requires k < ScanEnd(c.alarms) && Due(c.alarms[k].alarm, now.hour, now.minute)
    requires forall j :: 0 <= j < k ==> !Due(c.alarms[j].alarm, now.hour, now.minute)
    ensures Fired(c, now) == Some(c.alarms[k])
    ensures AfterTick(c, now).pending == Some(c.alarms[k])
    ensures TickSounds(c, now) == [Play(c.alarms[k].alarm.soundPath, true)]
  {
    var scanned := c.alarms[..ScanEnd(c.alarms)];
    assert scanned[k] == c.alarms[k];
    assert forall j :: 0 <= j < k ==> scanned[j] == c.alarms[j];
    assert FirstDue(scanned, now.hour, now.minute) == Some(k);
  }

  /** The loop's test on hours and minutes is the test on the minute of the day. */
  lemma DueAtMinute(a: Alarm, hour: int, minute: int)
    requires 0 <= minute < 60
    ensures Due(a, hour, minute) <==> ParseClock(a.time) == Some(hour * 60 + minute)
  {
    var t := ParseClock(a.time);
    if t.Some? && t.value == hour * 60 + minute {
      assert t.value / 60 == hour && t.value % 60 == minute;
    }
  }

  /** No double trigger: while an alarm is pending, any number of passes leave
      it, the prompt and the audio alone. */
  lemma {:induction false} PendingIsSticky(c: Clock, moments: seq<Moment>)
    requires c.pending.Some?
    ensures Ticks(c, moments).pending == c.pending
    ensures Ticks(c, moments).dialog == c.dialog
    ensures Ticks(c, moments).alarms == c.alarms
    ensures TicksSounds(c, moments) == []
    decreases |moments|
  {
    if moments != [] {
      PendingIsSticky(AfterTick(c, moments[0]), moments[1..]);
    }
  }

  /** At most one alarm fires over any run of passes without an acknowledgement. */
  lemma {:induction false} AtMostOneTrigger(c: Clock, moments: seq<Moment>)
    ensures |TicksSounds(c, moments)| <= 1
    ensures c.pending.Some? ==> TicksSounds(c, moments) == []
    decreases |moments|
  {
    if moments != [] {
      var c' := AfterTick(c, moments[0]);
      if Fired(c, moments[0]).Some? {
        PendingIsSticky(c', moments[1..]);
      } else {
        AtMostOneTrigger(c', moments[1..]);
      }
    }
  }

  /** After `on_closing` has lowered the flag, the next pass ends the loop and
      no pass triggers anything. */
  lemma {:induction false} ClosedLoopEnds(c: Clock, moments: seq<Moment>)
    requires !c.running
    ensures Ticks(c, moments) == if moments == [] then c else c.(polling := false)
    ensures TicksSounds(c, moments) == []
    decreases |moments|
  {
    if moments != [] {
      ClosedLoopEnds(AfterTick(c, moments[0]), moments[1..]);
    }
  }

  /** `list.remove` on the pending alarm's content removes the pending dict
      itself, because no earlier dict has the same content. */
  lemma {:induction false} RemoveFirstTakesPending(es: seq<Entry>, p: Entry, k: nat)
    requires PendingFirst(es, p)
    requires k < |es| && es[k].ref == p.ref
    ensures RemoveFirst(es, p.alarm) == es[..k] + es[k + 1..]
    decreases |es|
  {
    assert es[k] == p;
    if k > 0 {
      assert es[0].alarm != p.alarm;
      assert PendingFirst(es[1..], p) by {
        forall m | 0 <= m < |es[1..]| && es[1..][m].ref == p.ref
          ensures es[1..][m] == p && forall j :: 0 <= j < m ==> es[1..][j].alarm != p.alarm
        {
          assert es[m + 1].ref == p.ref;
          forall j | 0 <= j < m ensures es[1..][j].alarm != p.alarm {
            assert es[1..][j] == es[j + 1];
          }
        }
      }
      RemoveFirstTakesPending(es[1..], p, k - 1);
      assert es[..k] == [es[0]] + es[1..][..k - 1];
      assert es[k + 1..] == es[1..][k..];
    }
  }

  /** `list.remove` drops exactly the first dict with that content. */
  lemma {:induction false} RemoveFirstDropsFirst(es: seq<Entry>, a: Alarm, k: nat)
    requires k < |es| && es[k].alarm == a
    requires forall j :: 0 <= j < k ==> es[j].alarm != a
    ensures RemoveFirst(es, a) == es[..k] + es[k + 1..]
    decreases |es|
  {
    if k > 0 {
      RemoveFirstDropsFirst(es[1..], a, k - 1);
      assert es[..k] == [es[0]] + es[1..][..k - 1];
      assert es[k + 1..] == es[1..][k..];
    }
  }

  /** `list.remove` of a present content is a pop at its first index. */
  lemma RemoveFirstIsPop(es: seq<Entry>, a: Alarm) returns (k: nat)
    requires a in Records(es)
    ensures k < |es| && es[k].alarm == a && RemoveFirst(es, a) == es[..k] + es[k + 1..]
    ensures forall j :: 0 <= j < k ==> es[j].alarm != a
  {
    var i :| 0 <= i < |es| && Records(es)[i] == a;
    var found := FirstWith(es, a, i);
    k := found;
    RemoveFirstDropsFirst(es, a, k);
  }

  lemma {:induction false} FirstWith(es: seq<Entry>, a: Alarm, i: nat) returns (k: nat)
    requires i < |es| && es[i].alarm == a
    ensures k <= i && es[k].alarm == a && forall j :: 0 <= j < k ==> es[j].alarm != a
    decreases i
  {
    if exists j :: 0 <= j < i && es[j].alarm == a {
      var j :| 0 <= j < i && es[j].alarm == a;
      k := FirstWith(es, a, j);
    } else {
      k := i;
    }
  }

  lemma RecordsSnoc(es: seq<Entry>, e: Entry)
    ensures Records(es + [e]) == Records(es) + [e.alarm]
  {
    assert forall i :: 0 <= i < |es| ==> (es + [e])[i] == es[i];
  }

  /** Appending a dict with a fresh identity keeps the invariant. */
  lemma AppendConsistent(c: Clock, nextRef: nat, a: Alarm)
    requires Consistent(c, nextRef)
    ensures Consistent(c.(alarms := c.alarms + [Entry(nextRef, a)]), nextRef + 1)
  {
    var es := c.alarms;
    var es' := es + [Entry(nextRef, a)];
    assert forall i :: 0 <= i < |es| ==> es'[i] == es[i];
    if c.pending.Some? {
      var p := c.pending.value;
      forall m | 0 <= m < |es'| && es'[m].ref == p.ref
        ensures es'[m] == p && forall j :: 0 <= j < m ==> es'[j].alarm != p.alarm
      {
        assert m < |es|;
      }
    }
  }

  /** Popping any index of the list keeps the invariant, a pending alarm included. */
  lemma PopConsistent(c: Clock, nextRef: nat, k: nat)
    requires Consistent(c, nextRef) && k < |c.alarms|
    ensures Consistent(c.(alarms := c.alarms[..k] + c.alarms[k + 1..]), nextRef)
  {
    var es := c.alarms;
    var es' := es[..k] + es[k + 1..];
    assert forall i :: 0 <= i < |es'| ==> es'[i] == if i < k then es[i] else es[i + 1];
    if c.pending.Some? {
      var p := c.pending.value;
      forall m | 0 <= m < |es'| && es'[m].ref == p.ref
        ensures es'[m] == p && forall j :: 0 <= j < m ==> es'[j].alarm != p.alarm
      {
        var om := if m < k then m else m + 1;
        assert es[om] == es'[m];
        forall j | 0 <= j < m ensures es'[j].alarm != p.alarm {
          var oj := if j < k then j else j + 1;
          assert es[oj] == es'[j] && oj < om;
        }
      }
    }
  }

  /** The snooze changes the time of the pending dict only: every other dict,
      and the sound and note of that one, are untouched. */
  lemma SnoozedOnlyRetimes(es: seq<Entry>, ref: nat, newTime: string)
    requires forall i, j :: 0 <= i < j < |es| ==> es[i].ref != es[j].ref
    ensures |Snoozed(es, ref, newTime)| == |es|
    ensures forall i :: 0 <= i < |es| ==>
      Snoozed(es, ref, newTime)[i].ref == es[i].ref &&
      Snoozed(es, ref, newTime)[i].alarm.soundPath == es[i].alarm.soundPath &&
      Snoozed(es, ref, newTime)[i].alarm.note == es[i].alarm.note &&
      (Snoozed(es, ref, newTime)[i].alarm.time == if es[i].ref == ref then newTime else es[i].alarm.time)
    ensures forall i, j :: 0 <= i < |es| && 0 <= j < |es| && es[i].ref == ref && es[j].ref == ref ==> i == j
  {
  }
}
