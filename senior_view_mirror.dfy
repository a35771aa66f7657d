/** components/SeniorViewMirror.tsx: the guardian's read-only picture of what the elder's
    screen shows, derived from the latest sync data alone. */
module SeniorViewMirror {
  import opened Wrappers
  import opened Types
  import opened Text
  import opened LanguageContext

  /** A heartbeat counts as live for fifteen seconds (strictly less). */
  const HeartbeatWindow := 15000

  /** The single panel the mirror renders. */
  datatype Panel =
    | HomePanel
    | RemindersPanel(firstDone: bool, secondDone: bool)
    | OtherPanel(text: string)

  datatype MirrorView = Establishing | MirrorScreen(online: bool, panel: Panel)

  /** `Date.now() - last_heartbeat < 15000`. */
  predicate Online(data: SyncData, now: int) {
    now - data.lastHeartbeat < HeartbeatWindow
  }

  /** `current_route || AppRoute.HOME`. */
  function EffectiveRoute(data: SyncData): (r: Route)
    ensures data.currentRoute.None? ==> r == HomeRoute
    ensures data.currentRoute.Some? ==> r == data.currentRoute.value
  {
    data.currentRoute.GetOr(HomeRoute)
  }

  /** `completed_reminder_ids?.includes(id.toString())`. */
  predicate ReminderDone(data: SyncData, id: nat) {
    data.completedReminderIds.Some? && NatToString(id) in data.completedReminderIds.value
  }

  /** The text of the panel for any other module. */
  function ModuleText(table: Table, lang: Language, route: Route): string {
    Translation(table, lang, "senior_using_module", Some([("module", StrValue(RouteName(route)))]))
  }

  /** The rendered mirror. */
  function Mirror(data: Option<SyncData>, now: int, table: Table, lang: Language): MirrorView {
    match data
    case None => Establishing
    case Some(d) =>
      var route := EffectiveRoute(d);
      var panel :=
        if route == HomeRoute then HomePanel
        else if route == RemindersRoute then RemindersPanel(ReminderDone(d, 1), ReminderDone(d, 2))
        else OtherPanel(ModuleText(table, lang, route));
      MirrorScreen(Online(d, now), panel)
  }

  /** No data gives only the placeholder; with data, the status badge follows the
      heartbeat rule and exactly one panel is chosen by the route, a missing route being
      home. */
  lemma MirrorClassification(data: Option<SyncData>, now: int, table: Table, lang: Language)
    ensures Mirror(data, now, table, lang) == Establishing <==> data.None?
    ensures data.Some? ==> Mirror(data, now, table, lang).online == (now - data.value.lastHeartbeat < 15000)
    ensures data.Some? ==>
      var p := Mirror(data, now, table, lang).panel;
      && (p.HomePanel? <==> data.value.currentRoute.None? || data.value.currentRoute == Some(HomeRoute))
      && (p.RemindersPanel? <==> data.value.currentRoute == Some(RemindersRoute))
      && (p.OtherPanel? <==>
            data.value.currentRoute.Some? && data.value.currentRoute.value !in {HomeRoute, RemindersRoute})
  {
  }

  /** Reminder #1 and #2 show as done exactly when their decimal ids are among the
      completed ids, and a distinct id never marks either of them. */
  lemma ReminderMarks(d: SyncData, now: int, table: Table, lang: Language, ids: seq<string>)
    requires d.currentRoute == Some(RemindersRoute) && d.completedReminderIds == Some(ids)
    ensures Mirror(Some(d), now, table, lang).panel == RemindersPanel("1" in ids, "2" in ids)
    ensures d.completedReminderIds.value == ["10"] ==> !Mirror(Some(d), now, table, lang).panel.firstDone
  {
    assert NatToString(1) == "1" && NatToString(2) == "2";
  }

  /** The panel for another module, in English: the route's value takes the placeholder's
      place. */
  lemma ModuleTextEnglish(table: Table, route: Route)
    requires "senior_using_module" in table(En) && table(En)["senior_using_module"] == "Senior is using: {module}"
    ensures ModuleText(table, En, route) == "Senior is using: " + RouteName(route)
  {
    var en := "Senior is using: {module}";
    assert Lookup(table, En, "senior_using_module") == en;
    assert en[17..25] == Placeholder("module");
    assert forall j :: 0 <= j < 17 ==> en[j] != '{';
    PlaceholderAtFirstBrace(en, "module", StrValue(RouteName(route)), 17);
    assert en[..17] == "Senior is using: " && en[25..] == "";
  }
}
