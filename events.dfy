/** The Events page: the attendance toggle and the search filter. */
module Events {
  import opened Records
  import opened Text
  import Lists

  /** One event after the Attend button: the flag flips and the count follows it. */
  function Attend(e: Event): Event
  {
    e.(isAttending := !e.isAttending,
       attendees := if e.isAttending then e.attendees - 1 else e.attendees + 1)
  }

  /** The attendees other than the current user: the quantity the toggle preserves. */
  function OtherAttendees(e: Event): int
  {
    e.attendees - (if e.isAttending then 1 else 0)
  }

  /** `handleAttend(id)`: toggles every event with that id, leaves the rest alone. */
  function HandleAttend(events: seq<Event>, id: int): (r: seq<Event>)
    ensures |r| == |events|
    ensures forall i :: 0 <= i < |events| && events[i].id != id ==> r[i] == events[i]
    ensures forall i :: 0 <= i < |events| && events[i].id == id ==>
      && r[i].isAttending == !events[i].isAttending
      && r[i].attendees == (if events[i].isAttending then events[i].attendees - 1 else events[i].attendees + 1)
      && r[i] == events[i].(isAttending := r[i].isAttending, attendees := r[i].attendees)
  {
    Lists.MapWhere(events, (e: Event) => e.id == id, Attend)
  }

  /** The toggle is an involution: a second click with the same id restores the list. */
  lemma HandleAttendInvolution(events: seq<Event>, id: int)
    ensures HandleAttend(HandleAttend(events, id), id) == events
  {
  }

  /** The number of other attendees is the same before and after the toggle, for every event. */
  lemma HandleAttendKeepsOtherAttendees(events: seq<Event>, id: int)
    ensures forall i :: 0 <= i < |events| ==> OtherAttendees(HandleAttend(events, id)[i]) == OtherAttendees(events[i])
  {
  }

  /** An id that no event carries leaves the list as it is. */
  lemma HandleAttendAbsentId(events: seq<Event>, id: int)
    requires forall i :: 0 <= i < |events| ==> events[i].id != id
    ensures HandleAttend(events, id) == events
  {
  }

  /** The search test: the name or the description contains the term, ignoring case. */
  predicate EventMatches(e: Event, searchTerm: string)
  {
    MatchesTerm(e.name, searchTerm) || MatchesTerm(e.description, searchTerm)
  }

  /** `filteredEvents`: the matching events, in their original order. */
  function FilteredEvents(events: seq<Event>, searchTerm: string): (r: seq<Event>)
    ensures Lists.IsSubsequence(r, events)
    ensures forall e :: e in r <==> e in events && EventMatches(e, searchTerm)
    ensures forall e :: e in events && EventMatches(e, searchTerm) ==> multiset(r)[e] == multiset(events)[e]
  {
    var r := Lists.Filter(events, (e: Event) => EventMatches(e, searchTerm));
    assert forall e :: e in events && EventMatches(e, searchTerm) ==> multiset(events)[e] > 0;
    r
  }

  /** An empty search box shows every event. */
  lemma {:induction false} FilteredEventsEmptyTerm(events: seq<Event>)
    ensures FilteredEvents(events, "") == events
  {
    forall i | 0 <= i < |events| ensures EventMatches(events[i], "") {
      EmptyTermMatches(events[i].name);
    }
    Lists.FilterAll(events, (e: Event) => EventMatches(e, ""));
  }
}
