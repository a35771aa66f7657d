/** App.tsx: the reminder and alarm list updates, the once-a-second alarm trigger, and the
    route-to-screen switch. The list updates are pure functions of the old list; the state
    setters only store their results. */
module App {
  import opened Wrappers
  import opened Types

  /** `toggleReminder(id)`: `map` flipping `completed` on the reminders with that id. */
  function ToggleReminder(rs: seq<Reminder>, id: string): (r: seq<Reminder>)
    ensures |r| == |rs|
    ensures forall i :: 0 <= i < |rs| ==>
      r[i] == rs[i].(completed := if rs[i].id == id then !rs[i].completed else rs[i].completed)
  {
    if rs == [] then []
    else
      var head := if rs[0].id == id then rs[0].(completed := !rs[0].completed) else rs[0];
      [head] + ToggleReminder(rs[1..], id)
  }

  /** Toggling a reminder changes only the `completed` flag of matching reminders: every
      other field, the length and the order stay, and toggling twice restores the list. */
  lemma ToggleReminderOnlyFlipsMatching(rs: seq<Reminder>, id: string)
    ensures forall i :: 0 <= i < |rs| ==>
      var r := ToggleReminder(rs, id)[i];
      r.id == rs[i].id && r.time == rs[i].time && r.title == rs[i].title && r.kind == rs[i].kind
      && (r.completed != rs[i].completed <==> rs[i].id == id)
    ensures ToggleReminder(ToggleReminder(rs, id), id) == rs
  {
    var once := ToggleReminder(rs, id);
    var twice := ToggleReminder(once, id);
    assert forall i :: 0 <= i < |rs| ==> twice[i] == rs[i];
  }

  /** `toggleAlarm(id)`: `map` flipping `enabled` on the alarms with that id. */
  function ToggleAlarm(alarms: seq<Alarm>, id: string): (r: seq<Alarm>)
    ensures |r| == |alarms|
    ensures forall i :: 0 <= i < |alarms| ==>
      r[i] == alarms[i].(enabled := if alarms[i].id == id then !alarms[i].enabled else alarms[i].enabled)
  {
    if alarms == [] then []
    else
      var head := if alarms[0].id == id then alarms[0].(enabled := !alarms[0].enabled) else alarms[0];
      [head] + ToggleAlarm(alarms[1..], id)
  }

  /** Toggling an alarm flips `enabled` exactly on the matching alarms, and toggling the same
      id twice is the identity. */
  lemma ToggleAlarmTwiceIsIdentity(alarms: seq<Alarm>, id: string)
    ensures forall i :: 0 <= i < |alarms| ==>
      var a := ToggleAlarm(alarms, id)[i];
      a.id == alarms[i].id && a.time == alarms[i].time && a.labelText == alarms[i].labelText
      && a.isHighPriority == alarms[i].isHighPriority
      && (a.enabled != alarms[i].enabled <==> alarms[i].id == id)
    ensures ToggleAlarm(ToggleAlarm(alarms, id), id) == alarms
  {
    var once := ToggleAlarm(alarms, id);
    var twice := ToggleAlarm(once, id);
    assert forall i :: 0 <= i < |alarms| ==> twice[i] == alarms[i];
  }

  /** `deleteAlarm(id)`: `filter` keeping the alarms with another id. */
  function DeleteAlarm(alarms: seq<Alarm>, id: string): (r: seq<Alarm>)
    ensures |r| <= |alarms|
    ensures forall a :: a in r <==> a in alarms && a.id != id
  {
    if alarms == [] then []
    else if alarms[0].id == id then DeleteAlarm(alarms[1..], id)
    else [alarms[0]] + DeleteAlarm(alarms[1..], id)
  }

  /** Deleting works element by element and distributes over concatenation, so the kept
      alarms appear in their original order. */
  lemma {:induction false} DeleteAlarmKeepsOrder(xs: seq<Alarm>, ys: seq<Alarm>, id: string)
    ensures DeleteAlarm(xs + ys, id) == DeleteAlarm(xs, id) + DeleteAlarm(ys, id)
    ensures forall a :: DeleteAlarm([a], id) == if a.id == id then [] else [a]
    decreases |xs|
  {
    if xs == [] {
      assert xs + ys == ys;
    } else {
      var zs := xs + ys;
      assert zs[0] == xs[0];
      assert zs[1..] == xs[1..] + ys;
      DeleteAlarmKeepsOrder(xs[1..], ys, id);
      var rest := DeleteAlarm(xs[1..], id);
      if xs[0].id != id {
        assert DeleteAlarm(zs, id) == [xs[0]] + (rest + DeleteAlarm(ys, id));
        assert [xs[0]] + (rest + DeleteAlarm(ys, id)) == ([xs[0]] + rest) + DeleteAlarm(ys, id);
      }
    }
    forall a ensures DeleteAlarm([a], id) == if a.id == id then [] else [a] {
      DeleteSingleton(a, id);
    }
  }

  lemma DeleteSingleton(a: Alarm, id: string)
    ensures DeleteAlarm([a], id) == if a.id == id then [] else [a]
  {
    assert [a][1..] == [];
  }

  /** A list with no alarm of that id is left as it is. */
  lemma {:induction false} DeleteAbsentIsIdentity(alarms: seq<Alarm>, id: string)
    requires forall i :: 0 <= i < |alarms| ==> alarms[i].id != id
    ensures DeleteAlarm(alarms, id) == alarms
  {
    if alarms != [] {
      DeleteAbsentIsIdentity(alarms[1..], id);
    }
  }

  /** `addAlarm(time, label)`: one enabled alarm appended; its id is `Date.now()`'s string,
      passed in as `newId`. */
  function AddAlarm(alarms: seq<Alarm>, newId: string, time: string, labelText: string): (r: seq<Alarm>)
    ensures |r| == |alarms| + 1 && r[..|alarms|] == alarms
    ensures r[|alarms|] == Alarm(newId, time, labelText, true, None)
  {
    alarms + [Alarm(newId, time, labelText, true, None)]
  }

  /** The trigger condition of `alarms.find`. */
  predicate Fires(a: Alarm, now: string) {
    a.enabled && a.time == now
  }

  /** The index `Array.find` stops at: the first alarm that fires. */
  function FirstFiring(alarms: seq<Alarm>, now: string): (r: Option<nat>)
    ensures r.Some? ==> r.value < |alarms| && Fires(alarms[r.value], now)
    ensures r.Some? ==> forall j :: 0 <= j < r.value ==> !Fires(alarms[j], now)
    ensures r.None? ==> forall j :: 0 <= j < |alarms| ==> !Fires(alarms[j], now)
  {
    if alarms == [] then None
    else if Fires(alarms[0], now) then Some(0)
    else match FirstFiring(alarms[1..], now)
      case None => None
      case Some(i) => Some(i + 1)
  }

  /** `alarms.find(a => a.enabled && a.time === str)`, where `now` is the HH:MM string. */
  function FindTriggered(alarms: seq<Alarm>, now: string): Option<Alarm> {
    match FirstFiring(alarms, now)
    case None => None
    case Some(i) => Some(alarms[i])
  }

  /** The triggered alarm is an enabled alarm set for this minute; disabled alarms never
      trigger, and an alarm is picked whenever one matches. */
  lemma TriggeredIsEnabledAndDue(alarms: seq<Alarm>, now: string)
    ensures FindTriggered(alarms, now).Some? ==>
      FindTriggered(alarms, now).value in alarms && FindTriggered(alarms, now).value.enabled
      && FindTriggered(alarms, now).value.time == now
    ensures FindTriggered(alarms, now).None? <==> forall a :: a in alarms ==> !Fires(a, now)
  {
  }

  /** One tick of the interval: the new `activeAlarm`. */
  function AlarmTick(alarms: seq<Alarm>, active: Option<Alarm>, now: string): Option<Alarm> {
    var triggered := FindTriggered(alarms, now);
    if triggered.Some? && (active.None? || active.value.id != triggered.value.id) then triggered
    else active
  }

  /** The active alarm changes only to the triggered alarm, and only when none is active
      or the active one has another id. */
  lemma AlarmTickReplacesOnlyOnNewId(alarms: seq<Alarm>, active: Option<Alarm>, now: string)
    ensures AlarmTick(alarms, active, now) != active ==>
      AlarmTick(alarms, active, now) == FindTriggered(alarms, now)
      && (active.None? || active.value.id != FindTriggered(alarms, now).value.id)
    ensures FindTriggered(alarms, now).None? ==> AlarmTick(alarms, active, now) == active
  {
  }

  /** The overlay's `onDismiss`: no alarm is active. */
  function Dismiss(): Option<Alarm> {
    None
  }

  /** AS WRITTEN: dismissing an alarm does not keep it quiet. The interval keeps running
      every second, and during the rest of the same minute the next tick finds the same
      alarm again and shows it again. */
  lemma DismissedAlarmRefiresSameMinute(a: Alarm, now: string)
    requires a.enabled && a.time == now
    ensures AlarmTick([a], None, now) == Some(a)
    ensures AlarmTick([a], AlarmTick([a], None, now), now) == Some(a)
    ensures AlarmTick([a], Dismiss(), now) == Some(a)
  {
  }

  /** CORRECTED: the tick also remembers which alarm fired in which minute, and does not
      raise that alarm again in that minute. Returns the new active alarm and memory. */
  function AlarmTickOnce(alarms: seq<Alarm>, active: Option<Alarm>, lastFired: Option<(string, string)>, now: string)
    : (r: (Option<Alarm>, Option<(string, string)>))
  {
    var triggered := FindTriggered(alarms, now);
    if triggered.Some? && lastFired != Some((triggered.value.id, now))
       && (active.None? || active.value.id != triggered.value.id)
    then (triggered, Some((triggered.value.id, now)))
    else (active, lastFired)
  }

  /** The corrected tick keeps a dismissed alarm quiet for the rest of its minute, and
      otherwise fires exactly as the original does. */
  lemma DismissedAlarmStaysQuiet(alarms: seq<Alarm>, active: Option<Alarm>, lastFired: Option<(string, string)>, now: string)
    ensures var (shown, memory) := AlarmTickOnce(alarms, active, lastFired, now);
      shown != active ==> AlarmTickOnce(alarms, Dismiss(), memory, now).0 == None
    ensures (lastFired.None? || lastFired.value.1 != now) ==>
      AlarmTickOnce(alarms, active, lastFired, now).0 == AlarmTick(alarms, active, now)
  {
  }

  /** The screen `renderView` shows for a route. */
  datatype View =
    | HomeView | ChatView | VisionView | FamilyView | RemindersView | AlarmView | SafetyView | LiveCallView

  /** `renderView`'s switch. */
  function RenderView(route: Route): View {
    match route
    case HomeRoute => HomeView
    case ChatRoute => ChatView
    case VisionRoute => VisionView
    case FamilyRoute => FamilyView
    case RemindersRoute => RemindersView
    case AlarmRoute => AlarmView
    case SafetyRoute => SafetyView
    case LiveCallRoute => LiveCallView
    case _ => HomeView
  }

  /** The routes without a case of their own render the home screen, and the home screen
      is rendered for no other route. */
  lemma UnhandledRoutesRenderHome(route: Route)
    ensures RenderView(route) == HomeView <==>
      route in {HomeRoute, WeatherNewsRoute, RoleDetectionRoute, GuardianDashboardRoute, MedCaptureRoute, TestRoute}
  {
  }
}
