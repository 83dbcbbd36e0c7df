/** Campaign actions: creating a campaign in DRAFT, the campaign list (newest
    first, each with its recipient count) and one campaign's page (its newest
    recipients, capped, with the full count). */
module Events {
  import opened Schema
  import opened Query
  import opened Database

  const CreateFailed := "Failed to create event"
  const FetchEventsFailed := "Failed to fetch events"
  const FetchEventFailed := "Failed to fetch event"

  /** At most this many recipients are shown on a campaign's page. */
  const RecipientCap: nat := 100

  datatype CreateEventData = CreateEventData(
    subject: string,
    template: string,
    fromName: string,
    fromEmail: string,
    name: string)

  /** The insert data: the form's fields with status DRAFT. */
  function DraftInput(data: CreateEventData): EventInput
  {
    EventInput(data.name, data.subject, data.template, data.fromName, data.fromEmail, DRAFT)
  }

  /** `createEvent`; `storeThrows` stands for a failing insert. */
  method CreateEvent(store: Store, data: CreateEventData, now: Time, storeThrows: bool) returns (r: Result<Event>)
    requires store.Valid()
    modifies store
    ensures store.Valid()
    ensures store.recipients == old(store.recipients)
    ensures storeThrows ==>
              r == Failure(CreateFailed) && store.events == old(store.events) && store.nextId == old(store.nextId)
    ensures !storeThrows ==>
              && r.Success?
              && store.events == old(store.events) + [r.value]
              && !HasEvent(old(store.events), r.value.id)
              && r.value.status == DRAFT
              && r.value.name == data.name && r.value.subject == data.subject && r.value.template == data.template
              && r.value.fromName == data.fromName && r.value.fromEmail == data.fromEmail
              && r.value.description == None
              && r.value.createdAt == now && r.value.updatedAt == now
  {
    if storeThrows {
      return Failure(CreateFailed);
    }
    var e := store.CreateEvent(DraftInput(data), now);
    return Success(e);
  }

  function EventCreated(e: Event): int
  {
    e.createdAt
  }

  function RecipientCreated(r: Recipient): int
  {
    r.createdAt
  }

  /** A campaign with `_count.recipients`. */
  datatype EventSummary = EventSummary(event: Event, recipientCount: nat)

  function Listed(summaries: seq<EventSummary>): (es: seq<Event>)
    ensures |es| == |summaries|
    ensures forall i :: 0 <= i < |es| ==> es[i] == summaries[i].event
  {
    seq(|summaries|, i requires 0 <= i < |summaries| => summaries[i].event)
  }

  /** `getEvents`; `storeThrows` stands for a failing query. */
  function GetEvents(events: seq<Event>, recipients: seq<Recipient>, storeThrows: bool): (r: Result<seq<EventSummary>>)
    ensures storeThrows <==> r == Failure(FetchEventsFailed)
    ensures r.Success? <==> !storeThrows
    ensures r.Success? ==>
              && multiset(Listed(r.value)) == multiset(events)
              && SortedDesc(Listed(r.value), EventCreated)
              && forall i :: 0 <= i < |r.value| ==>
                   r.value[i].recipientCount == |OfEvent(recipients, r.value[i].event.id)|
  {
    if storeThrows then Failure(FetchEventsFailed)
    else
      var sorted := SortDesc(events, EventCreated);
      var summaries := seq(|sorted|, i requires 0 <= i < |sorted| =>
                             EventSummary(sorted[i], |OfEvent(recipients, sorted[i].id)|));
      assert Listed(summaries) == sorted;
      Success(summaries)
  }

  /** A campaign with its newest recipients and `_count.recipients`. */
  datatype EventDetail = EventDetail(event: Event, recipients: seq<Recipient>, recipientCount: nat)

  /** `getEvent`: an unknown id is a success without a campaign. */
  function GetEvent(events: seq<Event>, recipients: seq<Recipient>, id: Id, storeThrows: bool): (r: Result<Option<EventDetail>>)
    ensures storeThrows <==> r == Failure(FetchEventFailed)
    ensures !storeThrows && !HasEvent(events, id) ==> r == Success(None)
    ensures !storeThrows && HasEvent(events, id) ==>
              && r.Success? && r.value.Some?
              && r.value.value.event.id == id && r.value.value.event in events
              && r.value.value.recipientCount == |OfEvent(recipients, id)|
              && |r.value.value.recipients| == (if r.value.value.recipientCount < RecipientCap
                                                then r.value.value.recipientCount else RecipientCap)
              && SortedDesc(r.value.value.recipients, RecipientCreated)
              && multiset(r.value.value.recipients) <= multiset(OfEvent(recipients, id))
  {
    if storeThrows then Failure(FetchEventFailed)
    else match FindEvent(events, id)
      case None => Success(None)
      case Some(e) =>
        var all := OfEvent(recipients, id);
        var sorted := SortDesc(all, RecipientCreated);
        var shown := Take(sorted, RecipientCap);
        assert sorted == shown + sorted[|shown|..];
        assert SortedDesc(shown, RecipientCreated) by {
          assert forall i :: 0 <= i < |shown| ==> shown[i] == sorted[i];
        }
        Success(Some(EventDetail(e, shown, |all|)))
  }

  /** The page lists the newest recipients: one of the campaign's recipients
      that is left out was created no later than any recipient shown. */
  lemma GetEventShowsNewest(events: seq<Event>, recipients: seq<Recipient>, id: Id, x: Recipient, y: Recipient)
    requires GetEvent(events, recipients, id, false).Success?
    requires GetEvent(events, recipients, id, false).value.Some?
    requires x in recipients && x.eventId == id
    requires x !in GetEvent(events, recipients, id, false).value.value.recipients
    requires y in GetEvent(events, recipients, id, false).value.value.recipients
    ensures x.createdAt <= y.createdAt
  {
    var all := OfEvent(recipients, id);
    var sorted := SortDesc(all, RecipientCreated);
    var i :| 0 <= i < |recipients| && recipients[i] == x;
    assert x in all;
    assert x in multiset(sorted);
    TakeKeepsLargest(sorted, RecipientCap, RecipientCreated, x, y);
  }

  /** Every recipient of a campaign appears on its page when there are at most
      `RecipientCap` of them. */
  lemma GetEventShowsAllWhenFew(events: seq<Event>, recipients: seq<Recipient>, id: Id, x: Recipient)
    requires HasEvent(events, id)
    requires |OfEvent(recipients, id)| <= RecipientCap
    requires x in recipients && x.eventId == id
    ensures x in GetEvent(events, recipients, id, false).value.value.recipients
  {
    var all := OfEvent(recipients, id);
    var sorted := SortDesc(all, RecipientCreated);
    var i :| 0 <= i < |recipients| && recipients[i] == x;
    assert x in all;
    assert x in multiset(sorted);
    assert Take(sorted, RecipientCap) == sorted;
  }
}
