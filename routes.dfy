/** Navigation destinations: each screen's route template and the builders that
    fill the `{eventId}` argument of the three parameterised routes. */
module Routes {
  import opened Common

  datatype Screen =
    | Login | Register
    | Home | EventDetail | OrganizerDashboard
    | CreateEvent | EditEvent | MyEvents
    | Profile | History
    | About

  const AllScreens: seq<Screen> :=
    [Login, Register, Home, EventDetail, OrganizerDashboard, CreateEvent, EditEvent,
     MyEvents, Profile, History, About]

  const EventIdArg: string := "{eventId}"

  /** The route template a screen registers with the navigation graph. */
  function Route(s: Screen): string {
    match s
    case Login => "login"
    case Register => "register"
    case Home => "home"
    case EventDetail => "event_detail/{eventId}"
    case OrganizerDashboard => "organizer_dashboard/{eventId}"
    case CreateEvent => "create_event"
    case EditEvent => "edit_event/{eventId}"
    case MyEvents => "my_events"
    case Profile => "profile"
    case History => "history"
    case About => "about"
  }

  /** The screens whose route carries an event id, and so have a `createRoute`. */
  predicate TakesEventId(s: Screen) {
    s == EventDetail || s == OrganizerDashboard || s == EditEvent
  }

  /** The part of a parameterised template before `{eventId}`. */
  function RoutePrefix(s: Screen): (p: string)
    requires TakesEventId(s)
    ensures Route(s) == p + EventIdArg
    ensures forall i :: 0 <= i < |p| ==> p[i] != '{'
  {
    match s
    case EventDetail => "event_detail/"
    case OrganizerDashboard => "organizer_dashboard/"
    case EditEvent => "edit_event/"
  }

  /** `createRoute(eventId)`: the template with the event id substituted for its argument. */
  function CreateRoute(s: Screen, eventId: string): (r: string)
    requires TakesEventId(s)
    ensures r == Replace(Route(s), EventIdArg, eventId)
  {
    ReplaceAfterPlainPrefix(RoutePrefix(s), EventIdArg, eventId);
    RoutePrefix(s) + eventId
  }

  /** The destination a template names: the inverse of Route. */
  function ScreenOf(route: string): (r: Option<Screen>)
    ensures r.Some? ==> Route(r.value) == route
  {
    if route == "login" then Some(Login)
    else if route == "register" then Some(Register)
    else if route == "home" then Some(Home)
    else if route == "event_detail/{eventId}" then Some(EventDetail)
    else if route == "organizer_dashboard/{eventId}" then Some(OrganizerDashboard)
    else if route == "create_event" then Some(CreateEvent)
    else if route == "edit_event/{eventId}" then Some(EditEvent)
    else if route == "my_events" then Some(MyEvents)
    else if route == "profile" then Some(Profile)
    else if route == "history" then Some(History)
    else if route == "about" then Some(About)
    else None
  }

  /** Every screen's template leads back to that screen. */
  lemma ScreenOfRoute(s: Screen)
    ensures ScreenOf(Route(s)) == Some(s)
  {
  }

  /** Distinct screens have distinct templates, so no route is ambiguous. */
  lemma RoutesDistinct(a: Screen, b: Screen)
    requires a != b
    ensures Route(a) != Route(b)
  {
    ScreenOfRoute(a);
    ScreenOfRoute(b);
  }

  /** The eleven screens, each listed once. */
  lemma ScreensAreEleven()
    ensures |AllScreens| == 11
    ensures forall i, j :: 0 <= i < j < |AllScreens| ==> Route(AllScreens[i]) != Route(AllScreens[j])
  {
    forall i, j | 0 <= i < j < |AllScreens|
      ensures Route(AllScreens[i]) != Route(AllScreens[j])
    {
      RoutesDistinct(AllScreens[i], AllScreens[j]);
    }
  }
}
