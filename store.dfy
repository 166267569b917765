/** The process-wide application store: session, dashboard snapshot and UI
    state, with single-field setters and the three async actions, each await
    run as one sequential step. The external auth provider is a parameter.

    Next to the real fields the store keeps a ghost log of what it did, in
    order: every `set` call with the fields it wrote, and every call to the
    auth provider (with the value of `loading` at that moment). */
module Store {
  import opened Records

  datatype Field =
    | UserField | LoadingField | MetricsField | ConversationsField
    | TravelersField | SelectedTravelerField | SidebarOpenField | ActiveViewField

  datatype Event =
    | Set(fields: set<Field>)
    | ProviderSignIn(email: string, password: string, busy: bool)
    | ProviderSignOut

  /** What `supabase.auth.signInWithPassword` can do: resolve with a user,
      resolve with an error, or reject. */
  datatype AuthResponse =
    | AuthOk(id: string, email: string)
    | AuthError(message: string)
    | AuthThrows(reason: string)

  /** What `supabase.auth.signOut` can do: resolve (its result is not
      inspected) or reject. */
  datatype SignOutResponse = SignOutResolves | SignOutThrows(reason: string)

  /** All data fields of the store, as one value. */
  datatype StoreState = StoreState(
    user: Option<Profile>,
    loading: bool,
    metrics: Option<AIMetrics>,
    conversations: seq<AIConversation>,
    travelers: seq<Traveler>,
    selectedTraveler: Option<Traveler>,
    sidebarOpen: bool,
    activeView: string)

  /** The values the store is created with. */
  const InitialState := StoreState(None, false, None, [], [], None, true, "dashboard")

  /** The profile installed after a successful sign-in. */
  function AdminProfile(id: string, email: string, now: string): (p: Profile)
    ensures p.id == id && p.email == email && p.role == Admin
  {
    Profile(id, email, Admin, "Admin User", None, now, now)
  }

  /** The log one `signIn` call leaves: busy on, the provider call made while
      busy, the user installed on success only, busy off. */
  function SignInEvents(email: string, password: string, ok: bool): (es: seq<Event>)
    ensures |es| == if ok then 4 else 3
    ensures es[0] == Set({LoadingField}) && es[|es| - 1] == Set({LoadingField})
    ensures es[1] == ProviderSignIn(email, password, true)
    ensures ok ==> es[2] == Set({UserField})
  {
    [Set({LoadingField}), ProviderSignIn(email, password, true)]
    + (if ok then [Set({UserField})] else [])
    + [Set({LoadingField})]
  }

  /** The fixture metrics snapshot; every aggregate is non-negative. */
  function MockMetrics(): (m: AIMetrics)
    ensures m.active_conversations >= 0 && m.today_interactions >= 0
    ensures m.avg_response_time >= 0.0 && m.satisfaction_score >= 0.0
    ensures m.issue_resolution_rate >= 0.0 && m.escalation_rate >= 0.0
  {
    AIMetrics(127, 2.3, 4.7, 94.2, 1834, 5.8)
  }

  lemma FixtureDatesOrdered()
    ensures StringLessEq("2024-01-15", "2024-01-22")
    ensures StringLessEq("2024-01-20", "2024-01-28")
  {
    assert "2024-01-15"[..8] == "2024-01-22"[..8] && "2024-01-15"[8] < "2024-01-22"[8];
    assert "2024-01-20"[..8] == "2024-01-28"[..8] && "2024-01-20"[9] < "2024-01-28"[9];
  }

  /** The fixture travelers; `now` stands for the clock reading. */
  function MockTravelers(now: string): (ts: seq<Traveler>)
    ensures UniqueTravelerIds(ts)
    ensures TripsOrdered(ts)
  {
    var sarah := Traveler("1", "Sarah Johnson", "sarah.johnson@email.com", Some("+1 (555) 123-4567"),
      "MW-2024-001", "Tokyo, Japan", TravelDates("2024-01-15", "2024-01-22"), Traveling,
      map["communication" := "email", "language" := "en"], now, now);
    var michael := Traveler("2", "Michael Chen", "michael.chen@email.com", Some("+1 (555) 987-6543"),
      "MW-2024-002", "Barcelona, Spain", TravelDates("2024-01-20", "2024-01-28"), PreDeparture,
      map["communication" := "sms", "language" := "en"], now, now);
    FixtureDatesOrdered();
    assert sarah.id != michael.id;
    [sarah, michael]
  }

  /** The fixture conversations; each names a fixture traveler. */
  function MockConversations(now: string): (cs: seq<AIConversation>)
    ensures ConversationsResolve(cs, MockTravelers(now))
  {
    var ts := MockTravelers(now);
    assert ts[0].id == "1" && ts[1].id == "2";
    assert HasTraveler(ts, "1") && HasTraveler(ts, "2");
    [ AIConversation("1", "1", None, Active, Medium, 0.8, now, now, now),
      AIConversation("2", "2", None, Escalated, High, 0.2, now, now, now) ]
  }

  class AppStore {
    var user: Option<Profile>
    var loading: bool
    var metrics: Option<AIMetrics>
    var conversations: seq<AIConversation>
    var travelers: seq<Traveler>
    var selectedTraveler: Option<Traveler>
    var sidebarOpen: bool
    var activeView: string

    ghost var events: seq<Event>

    function State(): StoreState
      reads this
    {
      StoreState(user, loading, metrics, conversations, travelers, selectedTraveler, sidebarOpen, activeView)
    }

    constructor ()
      ensures State() == InitialState && events == []
    {
      user, loading, metrics := None, false, None;
      conversations, travelers, selectedTraveler := [], [], None;
      sidebarOpen, activeView := true, "dashboard";
      events := [];
    }

    method SetUser(u: Option<Profile>)
      modifies this
      ensures State() == old(State()).(user := u)
      ensures events == old(events) + [Set({UserField})]
    {
      user := u;
      events := events + [Set({UserField})];
    }

    method SetMetrics(m: AIMetrics)
      modifies this
      ensures State() == old(State()).(metrics := Some(m))
      ensures events == old(events) + [Set({MetricsField})]
    {
      metrics := Some(m);
      events := events + [Set({MetricsField})];
    }

    method SetConversations(cs: seq<AIConversation>)
      modifies this
      ensures State() == old(State()).(conversations := cs)
      ensures events == old(events) + [Set({ConversationsField})]
    {
      conversations := cs;
      events := events + [Set({ConversationsField})];
    }

    method SetTravelers(ts: seq<Traveler>)
      modifies this
      ensures State() == old(State()).(travelers := ts)
      ensures events == old(events) + [Set({TravelersField})]
    {
      travelers := ts;
      events := events + [Set({TravelersField})];
    }

    method SetSelectedTraveler(t: Option<Traveler>)
      modifies this
      ensures State() == old(State()).(selectedTraveler := t)
      ensures events == old(events) + [Set({SelectedTravelerField})]
    {
      selectedTraveler := t;
      events := events + [Set({SelectedTravelerField})];
    }

    method SetSidebarOpen(open: bool)
      modifies this
      ensures State() == old(State()).(sidebarOpen := open)
      ensures events == old(events) + [Set({SidebarOpenField})]
    {
      sidebarOpen := open;
      events := events + [Set({SidebarOpenField})];
    }

    method SetActiveView(view: string)
      modifies this
      ensures State() == old(State()).(activeView := view)
      ensures events == old(events) + [Set({ActiveViewField})]
    {
      activeView := view;
      events := events + [Set({ActiveViewField})];
    }

    method SetLoading(b: bool)
      modifies this
      ensures State() == old(State()).(loading := b)
      ensures events == old(events) + [Set({LoadingField})]
    {
      loading := b;
      events := events + [Set({LoadingField})];
    }

    /** `signIn`: true exactly when the provider resolved with a user, who is
      then installed as an admin; on a returned error or a rejection the user
      is left as it was. `loading` is on during the provider call and off on
      every exit; nothing else changes. */
    method SignIn(email: string, password: string, auth: (string, string) -> AuthResponse, now: string)
      returns (ok: bool)
      modifies this
      ensures ok <==> auth(email, password).AuthOk?
      ensures ok ==> user == Some(AdminProfile(auth(email, password).id, auth(email, password).email, now))
      ensures !ok ==> user == old(user)
      ensures !loading
      ensures State() == old(State()).(user := user, loading := false)
      ensures events == old(events) + SignInEvents(email, password, ok)
    {
      SetLoading(true);
      events := events + [ProviderSignIn(email, password, loading)];
      var response := auth(email, password);
      match response {
        case AuthOk(id, userEmail) =>
          SetUser(Some(AdminProfile(id, userEmail, now)));
          ok := true;
        case AuthError(_) =>
          // `if (error) throw error`, caught below
          ok := false;
        case AuthThrows(_) =>
          ok := false;
      }
      // finally
      SetLoading(false);
    }

    /** `signOut`: after the provider call, clear the user and nothing else.
      When the provider call rejects, the exception leaves the action before
      the `set`, so the user stays. */
    method SignOut(provider: SignOutResponse) returns (rejected: bool)
      modifies this
      ensures rejected <==> provider.SignOutThrows?
      ensures !rejected ==> State() == old(State()).(user := None)
      ensures rejected ==> State() == old(State())
      ensures events == old(events) + [ProviderSignOut] + (if rejected then [] else [Set({UserField})])
    {
      events := events + [ProviderSignOut];
      if provider.SignOutThrows? {
        return true;
      }
      SetUser(None);
      rejected := false;
    }

    /** `loadDashboardData`: busy on, the fixture metrics, conversations and
      travelers installed by one `set`, busy off. */
    method LoadDashboardData(now: string)
      modifies this
      ensures State() == old(State()).(loading := false, metrics := Some(MockMetrics()),
                                      conversations := MockConversations(now), travelers := MockTravelers(now))
      ensures events == old(events) + [Set({LoadingField}),
                                       Set({MetricsField, ConversationsField, TravelersField}),
                                       Set({LoadingField})]
      ensures UniqueTravelerIds(travelers) && TripsOrdered(travelers)
      ensures ConversationsResolve(conversations, travelers)
    {
      SetLoading(true);
      metrics, conversations, travelers := Some(MockMetrics()), MockConversations(now), MockTravelers(now);
      events := events + [Set({MetricsField, ConversationsField, TravelersField})];
      SetLoading(false);
    }
  }
}
