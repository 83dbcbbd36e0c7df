/** The relational store behind the actions: the Event and Recipient tables,
    the create inputs with the columns' defaults, and the single-row and bulk
    writes the actions issue. Every write keeps ids unique and every recipient
    attached to an existing event. */
module Database {
  import opened Schema
  import opened Query

  /** The columns a caller supplies when creating an event; the store fills in
      the id, an empty description and both timestamps. */
  datatype EventInput = EventInput(
    name: string,
    subject: string,
    template: string,
    fromName: string,
    fromEmail: string,
    status: EventStatus)

  /** The columns a caller supplies to the bulk recipient insert; the store
      fills in the id, status PENDING, no sentAt, no error and createdAt. */
  datatype RecipientInput = RecipientInput(
    eventId: Id,
    email: string,
    name: Option<string>,
    metadata: Entries)

  function NewEvent(input: EventInput, id: Id, now: Time): Event
  {
    Event(id, input.name, None, input.subject, input.fromName, input.fromEmail,
          input.template, input.status, now, now)
  }

  function NewRecipient(input: RecipientInput, id: Id, now: Time): Recipient
  {
    Recipient(id, input.email, input.name, Some(input.metadata), input.eventId,
              PENDING, None, None, now)
  }

  /** The rows a bulk insert adds: one per input, in input order, with
      consecutive ids from `base`. */
  function NewRecipients(inputs: seq<RecipientInput>, base: Id, now: Time): (rs: seq<Recipient>)
    ensures |rs| == |inputs|
  {
    seq(|inputs|, i requires 0 <= i < |inputs| => NewRecipient(inputs[i], base + i, now))
  }

  predicate HasEvent(events: seq<Event>, id: Id)
  {
    exists j :: 0 <= j < |events| && events[j].id == id
  }

  /** The event a unique-key lookup finds. */
  function FindEvent(events: seq<Event>, id: Id): (r: Option<Event>)
    ensures r.Some? <==> HasEvent(events, id)
    ensures r.Some? ==> r.value.id == id && r.value in events
  {
    if |events| == 0 then None
    else if events[0].id == id then Some(events[0])
    else
      var r := FindEvent(events[1..], id);
      assert forall j :: 1 <= j < |events| ==> events[1..][j - 1] == events[j];
      assert r.Some? ==> r.value in events[1..];
      r
  }

  predicate UniqueEventIds(events: seq<Event>)
  {
    forall i, j :: 0 <= i < j < |events| ==> events[i].id != events[j].id
  }

  predicate UniqueIds(rs: seq<Recipient>)
  {
    forall i, j :: 0 <= i < j < |rs| ==> rs[i].id != rs[j].id
  }

  /** The table invariants: ids are unique and below the next id to issue,
      and every recipient belongs to an event that exists. */
  predicate Consistent(events: seq<Event>, recipients: seq<Recipient>, nextId: nat)
  {
    && UniqueEventIds(events)
    && UniqueIds(recipients)
    && (forall i :: 0 <= i < |events| ==> events[i].id < nextId)
    && (forall i :: 0 <= i < |recipients| ==>
          recipients[i].id < nextId && HasEvent(events, recipients[i].eventId))
  }

  /** The recipients of one event, in table order. */
  function OfEvent(rs: seq<Recipient>, eventId: Id): seq<Recipient>
  {
    Filter(rs, (r: Recipient) => r.eventId == eventId)
  }

  /** The PENDING recipients of one event, in table order. */
  function PendingOf(rs: seq<Recipient>, eventId: Id): seq<Recipient>
  {
    Filter(rs, (r: Recipient) => r.eventId == eventId && r.status == PENDING)
  }

  /** Filtering a table with unique ids keeps the ids unique. */
  lemma {:induction false} FilterKeepsUnique(rs: seq<Recipient>, p: Recipient -> bool)
    requires UniqueIds(rs)
    ensures UniqueIds(Filter(rs, p))
  {
    if |rs| > 0 {
      assert UniqueIds(rs[1..]) by {
        forall i, j | 0 <= i < j < |rs[1..]| ensures rs[1..][i].id != rs[1..][j].id {
          assert rs[1..][i] == rs[i + 1] && rs[1..][j] == rs[j + 1];
        }
      }
      FilterKeepsUnique(rs[1..], p);
      var t := Filter(rs[1..], p);
      if p(rs[0]) {
        forall k | 0 <= k < |t| ensures t[k].id != rs[0].id {
          RowOfTail(rs, t[k]);
        }
        assert Filter(rs, p) == [rs[0]] + t;
      } else {
        assert Filter(rs, p) == t;
      }
    }
  }

  lemma RowOfTail(rs: seq<Recipient>, x: Recipient)
    requires UniqueIds(rs) && |rs| > 0 && x in rs[1..]
    ensures x.id != rs[0].id
  {
    var j :| 0 <= j < |rs[1..]| && rs[1..][j] == x;
    assert rs[j + 1] == x;
  }

  /** In a table with unique ids, a row is the only row with its id. */
  lemma SameIdSameRow(rs: seq<Recipient>, i: nat, x: Recipient)
    requires UniqueIds(rs) && i < |rs|
    requires x in rs && x.id == rs[i].id
    ensures x == rs[i]
  {
    var j :| 0 <= j < |rs| && rs[j] == x;
    assert !(i < j) && !(j < i);
  }

  function WithEventStatus(events: seq<Event>, id: Id, status: EventStatus, now: Time): (r: seq<Event>)
    ensures |r| == |events|
  {
    seq(|events|, i requires 0 <= i < |events| =>
      if events[i].id == id then events[i].(status := status, updatedAt := now) else events[i])
  }

  function WithSent(rs: seq<Recipient>, id: Id, now: Time): (r: seq<Recipient>)
    ensures |r| == |rs|
  {
    seq(|rs|, i requires 0 <= i < |rs| =>
      if rs[i].id == id then rs[i].(status := SENT, sentAt := Some(now)) else rs[i])
  }

  function WithFailed(rs: seq<Recipient>, id: Id, error: string): (r: seq<Recipient>)
    ensures |r| == |rs|
  {
    seq(|rs|, i requires 0 <= i < |rs| =>
      if rs[i].id == id then rs[i].(status := FAILED, error := Some(error)) else rs[i])
  }

  /** Rewriting rows in place, keeping each row's id and event, keeps the
      tables consistent. */
  lemma RewriteKeepsConsistent(events: seq<Event>, rs: seq<Recipient>, rs': seq<Recipient>, nextId: nat)
    requires Consistent(events, rs, nextId)
    requires |rs'| == |rs|
    requires forall i :: 0 <= i < |rs| ==> rs'[i].id == rs[i].id && rs'[i].eventId == rs[i].eventId
    ensures Consistent(events, rs', nextId)
  {
  }

  /** Rewriting events in place, keeping each event's id, keeps the tables
      consistent. */
  lemma RewriteEventsKeepsConsistent(events: seq<Event>, events': seq<Event>, rs: seq<Recipient>, nextId: nat)
    requires Consistent(events, rs, nextId)
    requires |events'| == |events|
    requires forall i :: 0 <= i < |events| ==> events'[i].id == events[i].id
    ensures Consistent(events', rs, nextId)
  {
    forall i | 0 <= i < |rs| ensures HasEvent(events', rs[i].eventId) {
      var j :| 0 <= j < |events| && events[j].id == rs[i].eventId;
      assert events'[j].id == rs[i].eventId;
    }
  }

  class Store {
    var events: seq<Event>
    var recipients: seq<Recipient>
    var nextId: nat

    ghost predicate Valid()
      reads this
    {
      Consistent(events, recipients, nextId)
    }

    constructor ()
      ensures Valid()
      ensures events == [] && recipients == [] && nextId == 0
    {
      events, recipients, nextId := [], [], 0;
    }

    /** `event.create`: the new row gets the next id and both timestamps. */
    method CreateEvent(input: EventInput, now: Time) returns (e: Event)
      requires Valid()
      modifies this
      ensures Valid()
      ensures e == NewEvent(input, old(nextId), now)
      ensures events == old(events) + [e]
      ensures recipients == old(recipients) && nextId == old(nextId) + 1
    {
      ghost var before := events;
      e := NewEvent(input, nextId, now);
      events := events + [e];
      nextId := nextId + 1;
      assert forall i :: 0 <= i < |recipients| ==> HasEvent(events, recipients[i].eventId) by {
        forall i | 0 <= i < |recipients| ensures HasEvent(events, recipients[i].eventId) {
          assert HasEvent(before, recipients[i].eventId);
          var j :| 0 <= j < |before| && before[j].id == recipients[i].eventId;
          assert events[j] == before[j];
        }
      }
    }

    /** `recipient.createMany`: one statement, so either every row goes in or
        none does; it fails when a row names an event that does not exist. */
    method CreateRecipients(inputs: seq<RecipientInput>, now: Time) returns (ok: bool)
      requires Valid()
      modifies this
      ensures Valid()
      ensures ok <==> forall i :: 0 <= i < |inputs| ==> HasEvent(events, inputs[i].eventId)
      ensures events == old(events)
      ensures ok ==> recipients == old(recipients) + NewRecipients(inputs, old(nextId), now)
                     && nextId == old(nextId) + |inputs|
      ensures !ok ==> recipients == old(recipients) && nextId == old(nextId)
    {
      ok := forall i :: 0 <= i < |inputs| ==> HasEvent(events, inputs[i].eventId);
      if ok {
        var added := NewRecipients(inputs, nextId, now);
        ghost var before := recipients;
        recipients := recipients + added;
        nextId := nextId + |inputs|;
        assert UniqueIds(recipients) by {
          forall i, j | 0 <= i < j < |recipients| ensures recipients[i].id != recipients[j].id {
            if j < |before| {
              assert recipients[i] == before[i] && recipients[j] == before[j];
            } else if i < |before| {
              assert recipients[i] == before[i] && recipients[j] == added[j - |before|];
            } else {
              assert recipients[i] == added[i - |before|] && recipients[j] == added[j - |before|];
            }
          }
        }
        assert forall i :: 0 <= i < |recipients| ==> recipients[i].id < nextId by {
          forall i | 0 <= i < |recipients| ensures recipients[i].id < nextId {
            if i >= |before| {
              assert recipients[i] == added[i - |before|];
            }
          }
        }
        assert forall i :: 0 <= i < |recipients| ==> HasEvent(events, recipients[i].eventId) by {
          forall i | 0 <= i < |recipients| ensures HasEvent(events, recipients[i].eventId) {
            if i >= |before| {
              assert recipients[i] == added[i - |before|];
            }
          }
        }
      }
    }

    /** `event.update` of the status column (the update refreshes updatedAt). */
    method SetEventStatus(id: Id, status: EventStatus, now: Time)
      requires Valid()
      modifies this
      ensures Valid()
      ensures events == WithEventStatus(old(events), id, status, now)
      ensures recipients == old(recipients) && nextId == old(nextId)
    {
      ghost var before := events;
      events := WithEventStatus(events, id, status, now);
      RewriteEventsKeepsConsistent(before, events, recipients, nextId);
    }

    /** `recipient.update` to SENT with the send time. */
    method MarkSent(id: Id, now: Time)
      requires Valid()
      modifies this
      ensures Valid()
      ensures recipients == WithSent(old(recipients), id, now)
      ensures events == old(events) && nextId == old(nextId)
    {
      ghost var before := recipients;
      recipients := WithSent(recipients, id, now);
      RewriteKeepsConsistent(events, before, recipients, nextId);
    }

    /** `recipient.update` to FAILED with the error text. */
    method MarkFailed(id: Id, error: string)
      requires Valid()
      modifies this
      ensures Valid()
      ensures recipients == WithFailed(old(recipients), id, error)
      ensures events == old(events) && nextId == old(nextId)
    {
      ghost var before := recipients;
      recipients := WithFailed(recipients, id, error);
      RewriteKeepsConsistent(events, before, recipients, nextId);
    }
  }
}
