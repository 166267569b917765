/** The record types shared by the store and the components: an operator's
    profile, a traveler, an AI conversation and the metrics snapshot. String
    unions become enumerations; optional fields become `Option`. */
module Records {

  datatype Option<T> = None | Some(value: T)

  datatype Role = Admin | Agent

  /** The signed-in operator. `created_at`/`updated_at` are ISO timestamps,
      kept as opaque strings. */
  datatype Profile = Profile(
    id: string,
    email: string,
    role: Role,
    full_name: string,
    avatar_url: Option<string>,
    created_at: string,
    updated_at: string)

  datatype TravelerStatus = PreDeparture | Traveling | Completed

  /** ISO dates of a trip, as strings. */
  datatype TravelDates = TravelDates(departure: string, return_: string)

  datatype Traveler = Traveler(
    id: string,
    name: string,
    email: string,
    phone: Option<string>,
    booking_id: string,
    destination: string,
    travel_dates: TravelDates,
    status: TravelerStatus,
    preferences: map<string, string>,
    created_at: string,
    updated_at: string)

  datatype ConversationStatus = Active | Escalated | Resolved

  datatype Priority = Low | Medium | High | Urgent

  datatype AIConversation = AIConversation(
    id: string,
    traveler_id: string,
    agent_id: Option<string>,
    status: ConversationStatus,
    priority: Priority,
    sentiment_score: real,
    last_message_at: string,
    created_at: string,
    updated_at: string)

  /** Dashboard aggregates; the fractional ones are only stored and shown. */
  datatype AIMetrics = AIMetrics(
    active_conversations: int,
    avg_response_time: real,
    satisfaction_score: real,
    issue_resolution_rate: real,
    today_interactions: int,
    escalation_rate: real)

  /** JavaScript's `a <= b` on strings: code-unit lexicographic order, a
      prefix coming first. */
  predicate StringLessEq(a: string, b: string) {
    (|a| <= |b| && a == b[..|a|])
    || exists k :: 0 <= k < |a| && k < |b| && a[..k] == b[..k] && a[k] < b[k]
  }

  /** No two travelers share an id. */
  ghost predicate UniqueTravelerIds(ts: seq<Traveler>) {
    forall i, j :: 0 <= i < j < |ts| ==> ts[i].id != ts[j].id
  }

  /** Some traveler in `ts` has id `id`. */
  ghost predicate HasTraveler(ts: seq<Traveler>, id: string) {
    exists i :: 0 <= i < |ts| && ts[i].id == id
  }

  /** Every conversation names a traveler that is present. */
  ghost predicate ConversationsResolve(cs: seq<AIConversation>, ts: seq<Traveler>) {
    forall k :: 0 <= k < |cs| ==> HasTraveler(ts, cs[k].traveler_id)
  }

  /** Every trip departs no later than it returns. */
  ghost predicate TripsOrdered(ts: seq<Traveler>) {
    forall i :: 0 <= i < |ts| ==> StringLessEq(ts[i].travel_dates.departure, ts[i].travel_dates.return_)
  }
}
