/** The feedback centre's counters: complaints, suggestions, tickets and
    urgent items among the feedback list. */
module Feedback {
  import opened Records

  datatype FeedbackType = Complaint | Suggestion | Ticket

  datatype FeedbackStatus = Open | InProgress | Resolved | Closed

  datatype FeedbackItem = FeedbackItem(
    id: string,
    type_: FeedbackType,
    traveler: string,
    destination: string,
    subject: string,
    content: string,
    priority: Priority,
    status: FeedbackStatus,
    created_at: string,
    sentiment: real)

  datatype FeedbackStats = FeedbackStats(complaints: nat, suggestions: nat, tickets: nat, urgent: nat)

  /** `items.filter(item => item.type === k).length`. */
  function CountOfType(items: seq<FeedbackItem>, k: FeedbackType): (n: nat)
    ensures n <= |items|
    ensures n == 0 <==> forall i :: 0 <= i < |items| ==> items[i].type_ != k
  {
    if items == [] then 0
    else (if items[0].type_ == k then 1 else 0) + CountOfType(items[1..], k)
  }

  /** `items.filter(item => item.priority === 'urgent').length`. */
  function CountUrgent(items: seq<FeedbackItem>): (n: nat)
    ensures n <= |items|
    ensures n == 0 <==> forall i :: 0 <= i < |items| ==> items[i].priority != Urgent
  {
    if items == [] then 0
    else (if items[0].priority == Urgent then 1 else 0) + CountUrgent(items[1..])
  }

  /** Every item has exactly one of the three types, so the three type
      counters partition the list. */
  lemma {:induction false} TypeCountsPartition(items: seq<FeedbackItem>)
    ensures CountOfType(items, Complaint) + CountOfType(items, Suggestion) + CountOfType(items, Ticket) == |items|
  {
    if items != [] {
      TypeCountsPartition(items[1..]);
    }
  }

  /** The `stats` record shown above the feedback list. */
  function Stats(items: seq<FeedbackItem>): (r: FeedbackStats)
    ensures r.complaints + r.suggestions + r.tickets == |items|
    ensures r.urgent <= |items|
  {
    TypeCountsPartition(items);
    FeedbackStats(
      CountOfType(items, Complaint),
      CountOfType(items, Suggestion),
      CountOfType(items, Ticket),
      CountUrgent(items))
  }

  /** The three fixed feedback items the component displays. */
  function MockFeedbackItems(): (r: seq<FeedbackItem>)
    ensures |r| == 3
  {
    [ FeedbackItem("1", Complaint, "Sarah Johnson", "Tokyo, Japan", "Hotel room not as described",
        "The hotel room was much smaller than shown in photos and the view was blocked...",
        High, Open, "2024-01-15T10:30:00Z", 0.2),
      FeedbackItem("2", Suggestion, "Michael Chen", "Barcelona, Spain", "Add more restaurant recommendations",
        "Would love to see more local restaurant suggestions in the app...",
        Medium, InProgress, "2024-01-15T09:15:00Z", 0.7),
      FeedbackItem("3", Ticket, "Emma Wilson", "Paris, France", "Flight delay compensation",
        "My flight was delayed by 4 hours, need help with compensation claim...",
        Urgent, Open, "2024-01-15T08:45:00Z", 0.3) ]
  }

  /** On the fixed list each counter shows one. */
  lemma MockStatsAreOnes()
    ensures Stats(MockFeedbackItems()) == FeedbackStats(1, 1, 1, 1)
  {
  }
}
