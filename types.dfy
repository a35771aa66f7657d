/** The records and enumerations of types.ts. */
module Types {
  import opened Wrappers

  /** AppRoute (types.ts:26-40). */
  datatype Route =
    | HomeRoute | ChatRoute | RemindersRoute | VisionRoute | FamilyRoute | AlarmRoute
    | SafetyRoute | LiveCallRoute | WeatherNewsRoute | RoleDetectionRoute
    | GuardianDashboardRoute | MedCaptureRoute | TestRoute

  /** The string value of each route, as the enum declares it. */
  function RouteName(r: Route): string {
    match r
    case HomeRoute => "home"
    case ChatRoute => "chat"
    case RemindersRoute => "reminders"
    case VisionRoute => "vision"
    case FamilyRoute => "family"
    case AlarmRoute => "alarm"
    case SafetyRoute => "safety"
    case LiveCallRoute => "live_call"
    case WeatherNewsRoute => "weather_news"
    case RoleDetectionRoute => "role_detection"
    case GuardianDashboardRoute => "guardian_dashboard"
    case MedCaptureRoute => "med_capture"
    case TestRoute => "test"
  }

  datatype UserRole = Undetermined | Elderly | Child

  /** Language (types.ts:86). */
  datatype Language = ZhCN | ZhTW | En

  datatype ReminderKind = Med | Exercise | Water | Social

  datatype Reminder = Reminder(id: string, time: string, title: string, kind: ReminderKind, completed: bool)

  datatype Alarm = Alarm(id: string, time: string, labelText: string, enabled: bool, isHighPriority: Option<bool>)

  datatype MessageRole = FromUser | FromAssistant

  datatype Message = Message(id: string, role: MessageRole, content: string, timestamp: int)

  datatype MedStatus = Pending | Verified | Skipped

  datatype MedRecord = MedRecord(
    id: string, medName: string, time: string, timestamp: int,
    evidenceImage: Option<string>, videoData: Option<string>,
    status: MedStatus, isVideoUploaded: Option<bool>)

  datatype HealthLogKind = Fall | MedDone | ActiveLog | Connection | VoiceTrigger | HighPriorityMed

  datatype HealthLog = HealthLog(id: string, kind: HealthLogKind, timestamp: int, detail: string)

  datatype UserStatus = Quiet | Walking | Intense | UnknownStatus

  datatype Location = Location(lat: real, lng: real)

  datatype SyncData = SyncData(
    userStatus: UserStatus, stepCount: int, lastHeartbeat: int,
    location: Option<Location>, currentRoute: Option<Route>,
    completedReminderIds: Option<seq<string>>, hasMedMedal: Option<bool>,
    isFalling: Option<bool>)

  /** JavaScript truthiness of an optional string: present and not empty. */
  predicate Truthy(s: Option<string>) {
    s.Some? && s.value != ""
  }
}
