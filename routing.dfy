/** Top-level routing of the console: the login gate and the switch from the
    store's `activeView` tag to the view that is rendered. */
module Routing {
  import opened Records
  import opened Store

  datatype View =
    | LoginScreen
    | DashboardView
    | ConversationsView
    | TravelersView
    | TrainingView
    | AnalyticsView
    | SettingsView

  /** The ids of the sidebar's menu items, in menu order; a click on one
      stores its id as the active view. */
  const SidebarMenuIds: seq<string> :=
    ["dashboard", "conversations", "travelers", "training", "analytics", "settings"]

  /** `renderView()`: each menu id shows the view it names, any other tag
      falls back to the dashboard; the login screen is never routed to. */
  function RenderView(activeView: string): (v: View)
    ensures v != LoginScreen
    ensures activeView in SidebarMenuIds ==> TagOf(v) == activeView
    ensures activeView !in SidebarMenuIds ==> v == DashboardView
  {
    match activeView
    case "dashboard" => DashboardView
    case "conversations" => ConversationsView
    case "travelers" => TravelersView
    case "training" => TrainingView
    case "analytics" => AnalyticsView
    case "settings" => SettingsView
    case _ => DashboardView
  }

  /** `App`: the login form while nobody is signed in, whatever the active
      view; otherwise the routed view inside the dashboard layout. */
  function RenderApp(user: Option<Profile>, activeView: string): (v: View)
    ensures v == LoginScreen <==> user.None?
    ensures user.Some? ==> v == RenderView(activeView)
  {
    if user.None? then LoginScreen else RenderView(activeView)
  }

  /** The tag that selects a routed view. */
  function TagOf(v: View): (tag: string)
    requires v != LoginScreen
    ensures tag in SidebarMenuIds
  {
    match v
    case DashboardView => "dashboard"
    case ConversationsView => "conversations"
    case TravelersView => "travelers"
    case TrainingView => "training"
    case AnalyticsView => "analytics"
    case SettingsView => "settings"
  }

  /** Every routed view is reached by its own tag. */
  lemma TagRoutesBack(v: View)
    requires v != LoginScreen
    ensures RenderView(TagOf(v)) == v
  {
  }

  /** Every menu id has a case of its own in the switch: distinct menu ids
      render distinct views, and each is the view its tag names. */
  lemma MenuIdsHaveDedicatedCases()
    ensures forall i :: 0 <= i < |SidebarMenuIds| ==> TagOf(RenderView(SidebarMenuIds[i])) == SidebarMenuIds[i]
    ensures forall i, j :: 0 <= i < j < |SidebarMenuIds| ==> RenderView(SidebarMenuIds[i]) != RenderView(SidebarMenuIds[j])
  {
  }

  /** A fresh store shows the login screen; once a user is set, the initial
      tag routes to the dashboard. */
  lemma InitialStateShowsLogin(u: Profile)
    ensures RenderApp(InitialState.user, InitialState.activeView) == LoginScreen
    ensures RenderApp(Some(u), InitialState.activeView) == DashboardView
  {
  }
}
