/** The records the mailer stores: campaigns (events) and their recipients,
    with the two lifecycle enumerations, as the generated client types give them. */
module Schema {

  /** Row identifiers are issued by the store; an abstract natural stands for them. */
  type Id = nat

  /** Timestamps come from an abstract clock. */
  type Time = nat

  datatype Option<T> = None | Some(value: T)

  /** The `{ success: ..., error: ... }` shape of every server action. */
  datatype Result<T> = Success(value: T) | Failure(error: string)

  datatype EventStatus = DRAFT | SCHEDULED | SENDING | COMPLETED

  datatype RecipientStatus = PENDING | SENT | FAILED

  /** The entries of a JSON object of strings, in insertion order
      (a parsed CSV row, and the metadata stored from it). */
  type Entries = seq<(string, string)>

  datatype Event = Event(
    id: Id,
    name: string,
    description: Option<string>,
    subject: string,
    fromName: string,
    fromEmail: string,
    template: string,
    status: EventStatus,
    createdAt: Time,
    updatedAt: Time)

  datatype Recipient = Recipient(
    id: Id,
    email: string,
    name: Option<string>,
    metadata: Option<Entries>,
    eventId: Id,
    status: RecipientStatus,
    sentAt: Option<Time>,
    error: Option<string>,
    createdAt: Time)

  /** The value of the first entry named `key`; for a row without duplicate
      column names, what property access on the parsed object gives. */
  function Lookup(entries: Entries, key: string): (r: Option<string>)
    ensures r.Some? <==> exists i :: 0 <= i < |entries| && entries[i].0 == key
    ensures r.Some? ==> exists i :: 0 <= i < |entries| && entries[i] == (key, r.value)
                                    && forall j :: 0 <= j < i ==> entries[j].0 != key
  {
    if |entries| == 0 then None
    else if entries[0].0 == key then Some(entries[0].1)
    else
      var r := Lookup(entries[1..], key);
      assert forall i :: 1 <= i < |entries| ==> entries[1..][i - 1] == entries[i];
      assert r.Some? ==> exists i :: 0 <= i < |entries[1..]| && entries[1..][i] == (key, r.value)
                                  && forall j :: 0 <= j < i ==> entries[1..][j].0 != key;
      r
  }
}
