/** The bulk sender: marks the campaign SENDING, takes at most one batch of its
    PENDING recipients, renders and hands each message to the relay, and records
    SENT or FAILED on each row as it goes; with nothing pending it marks the
    campaign COMPLETED instead. The relay and every store write that can throw
    are inputs: `Setup` says which campaign-level step throws, `attempt(j)` what
    happens to the j-th message of the batch. */
module Mailer {
  import opened Schema
  import opened Query
  import opened Database
  import opened Template

  const BatchSize: nat := 50

  const EventNotFound := "Event not found"
  const BulkSendFailed := "Failed to execute bulk send"
  const NoPendingMessage := "No pending recipients"
  const UnknownError := "Unknown error"

  datatype Envelope = Envelope(from: string, to: string, subject: string, html: string)

  /** The outbound relay, as far as the model sees it: the envelopes it accepted. */
  class Relay {
    var outbox: seq<Envelope>

    constructor ()
      ensures outbox == []
    {
      outbox := [];
    }

    method Submit(envelope: Envelope)
      modifies this
      ensures outbox == old(outbox) + [envelope]
    {
      outbox := outbox + [envelope];
    }
  }

  /** Which campaign-level step throws, if any. */
  datatype Setup = Healthy | LookupThrows | MarkSendingThrows | FetchThrows | MarkCompletedThrows

  /** What happens to one message of the batch. */
  datatype Attempt =
    | Delivered                        // relay accepts, SENT write succeeds
    | Refused(message: string)         // rendering or the relay throws; "" stands for an error without a message
    | SentWriteThrew(message: string)  // relay accepts, then the SENT write throws
    | FailedWriteThrew(accepted: bool) // the FAILED write in the handler throws as well

  datatype BulkResult =
    | BulkFailure(error: string)
    | NothingPending(message: string)
    | BulkSent(sent: nat, failed: nat)

  function Sender(ev: Event): string
  {
    "\"" + ev.fromName + "\" <" + ev.fromEmail + ">"
  }

  function EnvelopeFor(ev: Event, r: Recipient): Envelope
  {
    Envelope(Sender(ev), r.email, ev.subject, Render(ev.template, r))
  }

  /** The error text recorded on a FAILED row. */
  function ErrorText(message: string): (t: string)
    ensures t != ""
    ensures message != "" ==> t == message
  {
    if message == "" then UnknownError else message
  }

  predicate RelayAccepts(a: Attempt)
  {
    a.Delivered? || a.SentWriteThrew? || (a.FailedWriteThrew? && a.accepted)
  }

  /** The rows the dispatcher fetches: at most `BatchSize` PENDING recipients of
      the event, in table order. */
  function Batch(rs: seq<Recipient>, eventId: Id): seq<Recipient>
  {
    Take(PendingOf(rs, eventId), BatchSize)
  }

  datatype Progress = Progress(
    recipients: seq<Recipient>,
    outbox: seq<Envelope>,
    sent: nat,
    failed: nat,
    aborted: bool)

  /** One turn of the batch loop. */
  function Step(ev: Event, p: Progress, r: Recipient, a: Attempt, now: Time): Progress
  {
    var envelope := EnvelopeFor(ev, r);
    match a
    case Delivered =>
      p.(recipients := WithSent(p.recipients, r.id, now), outbox := p.outbox + [envelope], sent := p.sent + 1)
    case Refused(m) =>
      p.(recipients := WithFailed(p.recipients, r.id, ErrorText(m)), failed := p.failed + 1)
    case SentWriteThrew(m) =>
      p.(recipients := WithFailed(p.recipients, r.id, ErrorText(m)), outbox := p.outbox + [envelope], failed := p.failed + 1)
    case FailedWriteThrew(accepted) =>
      p.(outbox := if accepted then p.outbox + [envelope] else p.outbox, aborted := true)
  }

  /** The first `k` turns of the batch loop; an aborted loop does no more turns. */
  function Run(ev: Event, start: Progress, batch: seq<Recipient>, attempt: nat -> Attempt, now: Time, k: nat): Progress
    requires k <= |batch|
  {
    if k == 0 then start
    else
      var p := Run(ev, start, batch, attempt, now, k - 1);
      if p.aborted then p else Step(ev, p, batch[k - 1], attempt(k - 1), now)
  }

  datatype Outcome = Outcome(
    events: seq<Event>,
    recipients: seq<Recipient>,
    outbox: seq<Envelope>,
    result: BulkResult)

  /** One call of the bulk sender, on the tables, the relay's outbox and the faults. */
  function Dispatch(events: seq<Event>, recipients: seq<Recipient>, outbox: seq<Envelope>,
                    eventId: Id, now: Time, setup: Setup, attempt: nat -> Attempt): (o: Outcome)
    ensures |o.events| == |events|
    ensures setup == LookupThrows ==> o == Outcome(events, recipients, outbox, BulkFailure(BulkSendFailed))
    ensures setup != LookupThrows && !HasEvent(events, eventId) ==>
              o == Outcome(events, recipients, outbox, BulkFailure(EventNotFound))
    ensures setup == MarkSendingThrows && HasEvent(events, eventId) ==>
              o == Outcome(events, recipients, outbox, BulkFailure(BulkSendFailed))
    ensures setup == FetchThrows && HasEvent(events, eventId) ==>
              o == Outcome(WithEventStatus(events, eventId, SENDING, now), recipients, outbox, BulkFailure(BulkSendFailed))
    ensures setup == MarkCompletedThrows && HasEvent(events, eventId) && PendingOf(recipients, eventId) == [] ==>
              o == Outcome(WithEventStatus(events, eventId, SENDING, now), recipients, outbox, BulkFailure(BulkSendFailed))
    ensures forall i :: 0 <= i < |events| && events[i].id != eventId ==> o.events[i] == events[i]
    ensures setup != LookupThrows && setup != MarkSendingThrows && HasEvent(events, eventId) && !o.result.NothingPending? ==>
              forall i :: 0 <= i < |events| && events[i].id == eventId ==>
                o.events[i] == events[i].(status := SENDING, updatedAt := now)
    ensures o.result.BulkFailure? ==>
              (o.result.error == EventNotFound <==> setup != LookupThrows && !HasEvent(events, eventId))
              && (o.result.error == EventNotFound || o.result.error == BulkSendFailed)
    ensures o.result.NothingPending? ==>
              && o.result.message == NoPendingMessage
              && PendingOf(recipients, eventId) == []
              && o.recipients == recipients && o.outbox == outbox
              && forall i :: 0 <= i < |events| && events[i].id == eventId ==>
                   o.events[i] == events[i].(status := COMPLETED, updatedAt := now)
    ensures o.result.BulkSent? ==>
              && HasEvent(events, eventId)
              && PendingOf(recipients, eventId) != []
              && forall i :: 0 <= i < |events| && events[i].id == eventId ==>
                   o.events[i] == events[i].(status := SENDING, updatedAt := now)
  {
    if setup == LookupThrows then Outcome(events, recipients, outbox, BulkFailure(BulkSendFailed))
    else match FindEvent(events, eventId)
      case None => Outcome(events, recipients, outbox, BulkFailure(EventNotFound))
      case Some(ev) =>
        if setup == MarkSendingThrows then Outcome(events, recipients, outbox, BulkFailure(BulkSendFailed))
        else
          var sending := WithEventStatus(events, eventId, SENDING, now);
          if setup == FetchThrows then Outcome(sending, recipients, outbox, BulkFailure(BulkSendFailed))
          else
            var batch := Batch(recipients, eventId);
            if |batch| == 0 then
              if setup == MarkCompletedThrows then Outcome(sending, recipients, outbox, BulkFailure(BulkSendFailed))
              else Outcome(WithEventStatus(sending, eventId, COMPLETED, now), recipients, outbox,
                           NothingPending(NoPendingMessage))
            else
              var p := Run(ev, Progress(recipients, outbox, 0, 0, false), batch, attempt, now, |batch|);
              Outcome(sending, p.recipients, p.outbox,
                      if p.aborted then BulkFailure(BulkSendFailed) else BulkSent(p.sent, p.failed))
  }

  /** `sendBulkEmails`. */
  method SendBulkEmails(store: Store, relay: Relay, eventId: Id, now: Time, setup: Setup,
                        attempt: nat -> Attempt) returns (r: BulkResult)
    requires store.Valid()
    modifies store, relay
    ensures store.Valid()
    ensures store.nextId == old(store.nextId)
    ensures Outcome(store.events, store.recipients, relay.outbox, r)
         == Dispatch(old(store.events), old(store.recipients), old(relay.outbox), eventId, now, setup, attempt)
  {
    if setup == LookupThrows {
      return BulkFailure(BulkSendFailed);
    }
    var found := FindEvent(store.events, eventId);
    if found.None? {
      return BulkFailure(EventNotFound);
    }
    var ev := found.value;
    if setup == MarkSendingThrows {
      return BulkFailure(BulkSendFailed);
    }
    store.SetEventStatus(eventId, SENDING, now);
    if setup == FetchThrows {
      return BulkFailure(BulkSendFailed);
    }
    var batch := Batch(store.recipients, eventId);
    if |batch| == 0 {
      if setup == MarkCompletedThrows {
        return BulkFailure(BulkSendFailed);
      }
      store.SetEventStatus(eventId, COMPLETED, now);
      return NothingPending(NoPendingMessage);
    }
    var aborted, sent, failed := SendBatch(store, relay, ev, batch, now, attempt);
    r := if aborted then BulkFailure(BulkSendFailed) else BulkSent(sent, failed);
  }

  /** The loop over one batch: for each row, render and hand the message to
      the relay and record the outcome; a FAILED write that throws ends the
      loop and the whole call. */
  method SendBatch(store: Store, relay: Relay, ev: Event, batch: seq<Recipient>, now: Time,
                   attempt: nat -> Attempt) returns (aborted: bool, sent: nat, failed: nat)
    requires store.Valid()
    modifies store, relay
    ensures store.Valid()
    ensures store.events == old(store.events) && store.nextId == old(store.nextId)
    ensures Run(ev, Progress(old(store.recipients), old(relay.outbox), 0, 0, false), batch, attempt, now, |batch|)
         == Progress(store.recipients, relay.outbox, sent, failed, aborted)
  {
    ghost var start := Progress(store.recipients, relay.outbox, 0, 0, false);
    sent, failed, aborted := 0, 0, false;
    var i := 0;
    while i < |batch|
      invariant 0 <= i <= |batch|
      invariant store.Valid()
      invariant store.events == old(store.events) && store.nextId == old(store.nextId)
      invariant Run(ev, start, batch, attempt, now, i) == Progress(store.recipients, relay.outbox, sent, failed, false)
    {
      var recipient := batch[i];
      var envelope := EnvelopeFor(ev, recipient);
      ghost var before := Progress(store.recipients, relay.outbox, sent, failed, false);
      assert Run(ev, start, batch, attempt, now, i + 1) == Step(ev, before, recipient, attempt(i), now);
      match attempt(i) {
        case Delivered =>
          relay.Submit(envelope);
          store.MarkSent(recipient.id, now);
          sent := sent + 1;
        case Refused(m) =>
          store.MarkFailed(recipient.id, ErrorText(m));
          failed := failed + 1;
        case SentWriteThrew(m) =>
          relay.Submit(envelope);
          store.MarkFailed(recipient.id, ErrorText(m));
          failed := failed + 1;
        case FailedWriteThrew(accepted) =>
          if accepted {
            relay.Submit(envelope);
          }
          RunStaysAborted(ev, start, batch, attempt, now, i + 1, |batch|);
          return true, sent, failed;
      }
      i := i + 1;
    }
  }

  // ---------------------------------------------------------------------------
  // The batch loop in closed form

  /** Once the loop has aborted it stays aborted with the same state. */
  lemma {:induction false} RunStaysAborted(ev: Event, start: Progress, batch: seq<Recipient>,
                                           attempt: nat -> Attempt, now: Time, k: nat, k': nat)
    requires k <= k' <= |batch|
    requires Run(ev, start, batch, attempt, now, k).aborted
    ensures Run(ev, start, batch, attempt, now, k') == Run(ev, start, batch, attempt, now, k)
    decreases k' - k
  {
    if k < k' {
      RunStaysAborted(ev, start, batch, attempt, now, k, k' - 1);
    }
  }

  /** The first position in `b` of a row with this id. */
  function FindId(b: seq<Recipient>, id: Id): (r: Option<nat>)
    ensures r.Some? ==> r.value < |b| && b[r.value].id == id
    ensures r.None? <==> forall j :: 0 <= j < |b| ==> b[j].id != id
  {
    if |b| == 0 then None
    else match FindId(b[..|b| - 1], id)
      case Some(j) => Some(j)
      case None => if b[|b| - 1].id == id then Some(|b| - 1) else None
  }

  /** A row after a completed turn. */
  function Settle(row: Recipient, a: Attempt, now: Time): Recipient
  {
    match a
    case Delivered => row.(status := SENT, sentAt := Some(now))
    case Refused(m) => row.(status := FAILED, error := Some(ErrorText(m)))
    case SentWriteThrew(m) => row.(status := FAILED, error := Some(ErrorText(m)))
    case FailedWriteThrew(_) => row
  }

  /** A table row after the first `m` turns completed. */
  function SettledRow(row: Recipient, batch: seq<Recipient>, attempt: nat -> Attempt, m: nat, now: Time): Recipient
    requires m <= |batch|
  {
    match FindId(batch[..m], row.id)
    case None => row
    case Some(j) => Settle(row, attempt(j), now)
  }

  function DeliveredCount(attempt: nat -> Attempt, m: nat): nat
  {
    if m == 0 then 0 else DeliveredCount(attempt, m - 1) + (if attempt(m - 1).Delivered? then 1 else 0)
  }

  /** The envelopes the relay accepted in the first `n` turns. */
  function Handed(ev: Event, batch: seq<Recipient>, attempt: nat -> Attempt, n: nat): seq<Envelope>
    requires n <= |batch|
  {
    if n == 0 then []
    else Handed(ev, batch, attempt, n - 1)
         + (if RelayAccepts(attempt(n - 1)) then [EnvelopeFor(ev, batch[n - 1])] else [])
  }

  /** One more completed turn settles the row of its recipient and no other. */
  lemma StepSettlesRow(row: Recipient, current: Recipient, batch: seq<Recipient>, attempt: nat -> Attempt,
                       k: nat, now: Time, next: Recipient)
    requires 0 < k <= |batch| && UniqueIds(batch)
    requires current == SettledRow(row, batch, attempt, k - 1, now)
    requires !attempt(k - 1).FailedWriteThrew?
    requires next == (if current.id == batch[k - 1].id then Settle(current, attempt(k - 1), now) else current)
    ensures next == SettledRow(row, batch, attempt, k, now)
  {
    assert batch[..k][..k - 1] == batch[..k - 1];
    assert batch[..k][k - 1] == batch[k - 1];

  }

  /** `StepSettlesRow` for every row of the table. */
  lemma RowsStep(rows: seq<Recipient>, current: seq<Recipient>, next: seq<Recipient>,
                 batch: seq<Recipient>, attempt: nat -> Attempt, k: nat, now: Time)
    requires 0 < k <= |batch| && UniqueIds(batch) && !attempt(k - 1).FailedWriteThrew?
    requires |current| == |rows| && |next| == |rows|
    requires forall i :: 0 <= i < |rows| ==> current[i] == SettledRow(rows[i], batch, attempt, k - 1, now)
    requires forall i :: 0 <= i < |rows| ==>
               next[i] == if current[i].id == batch[k - 1].id then Settle(current[i], attempt(k - 1), now) else current[i]
    ensures forall i :: 0 <= i < |rows| ==> next[i] == SettledRow(rows[i], batch, attempt, k, now)
  {
    forall i | 0 <= i < |rows| ensures next[i] == SettledRow(rows[i], batch, attempt, k, now) {
      StepSettlesRow(rows[i], current[i], batch, attempt, k, now, next[i]);
    }
  }

  /** How many turns completed. */
  function Completed(p: Progress): nat
  {
    p.sent + p.failed
  }

  /** One turn: the outbox gains the envelope the relay accepted, a completed
      turn counts once, an aborting one sets the flag, and only the row of the
      turn's recipient changes, settled by the attempt. */
  lemma StepFacts(ev: Event, p: Progress, r: Recipient, a: Attempt, now: Time)
    ensures var p' := Step(ev, p, r, a, now);
            && p'.outbox == p.outbox + (if RelayAccepts(a) then [EnvelopeFor(ev, r)] else [])
            && p'.aborted == (p.aborted || a.FailedWriteThrew?)
            && p'.sent == p.sent + (if a.Delivered? then 1 else 0)
            && Completed(p') == Completed(p) + (if a.FailedWriteThrew? then 0 else 1)
            && |p'.recipients| == |p.recipients|
            && forall i :: 0 <= i < |p.recipients| ==>
                 p'.recipients[i] == if p.recipients[i].id == r.id then Settle(p.recipients[i], a, now) else p.recipients[i]
  {
  }

  /** After `k` turns, all `k` completed unless the loop aborted, and then
      fewer did. */
  lemma {:induction false} RunCompleted(ev: Event, start: Progress, batch: seq<Recipient>,
                                        attempt: nat -> Attempt, now: Time, k: nat)
    requires k <= |batch|
    requires start.sent == 0 && start.failed == 0 && !start.aborted
    ensures var p := Run(ev, start, batch, attempt, now, k);
            && (!p.aborted ==> Completed(p) == k)
            && (p.aborted ==> Completed(p) < k)
  {
    if k > 0 {
      RunCompleted(ev, start, batch, attempt, now, k - 1);
      var q := Run(ev, start, batch, attempt, now, k - 1);
      if !q.aborted {
        StepFacts(ev, q, batch[k - 1], attempt(k - 1), now);
      }
    }
  }

  /** After `k` turns: the loop aborted on the attempt right after the
      completed ones, none of which aborted, and `sent` counts the deliveries. */
  lemma {:induction false} RunCounts(ev: Event, start: Progress, batch: seq<Recipient>,
                                     attempt: nat -> Attempt, now: Time, k: nat)
    requires k <= |batch|
    requires start.sent == 0 && start.failed == 0 && !start.aborted
    ensures var p := Run(ev, start, batch, attempt, now, k);
            && Completed(p) <= k
            && (!p.aborted ==> Completed(p) == k)
            && (p.aborted ==> Completed(p) < k && attempt(Completed(p)).FailedWriteThrew?)
            && (forall j :: 0 <= j < Completed(p) ==> !attempt(j).FailedWriteThrew?)
            && p.sent == DeliveredCount(attempt, Completed(p))
  {
    RunCompleted(ev, start, batch, attempt, now, k);
    if k > 0 {
      RunCounts(ev, start, batch, attempt, now, k - 1);
      var q := Run(ev, start, batch, attempt, now, k - 1);
      if !q.aborted {
        StepFacts(ev, q, batch[k - 1], attempt(k - 1), now);
      }
    }
  }

  lemma AppendAssoc<T>(a: seq<T>, b: seq<T>, c: seq<T>)
    ensures (a + b) + c == a + (b + c)
  {
  }

  /** After `k` turns the relay holds the accepted envelopes of the completed
      turns, and of the aborting turn when the relay accepted it. */
  lemma {:induction false} RunOutbox(ev: Event, start: Progress, batch: seq<Recipient>,
                                     attempt: nat -> Attempt, now: Time, k: nat)
    requires k <= |batch|
    requires start.sent == 0 && start.failed == 0 && !start.aborted
    ensures var p := Run(ev, start, batch, attempt, now, k);
            && (!p.aborted ==> Completed(p) == k)
            && (p.aborted ==> Completed(p) < k)
            && p.outbox == start.outbox + Handed(ev, batch, attempt, if p.aborted then Completed(p) + 1 else Completed(p))
  {
    RunCompleted(ev, start, batch, attempt, now, k);
    if k > 0 {
      RunOutbox(ev, start, batch, attempt, now, k - 1);
      RunCompleted(ev, start, batch, attempt, now, k - 1);
      var q := Run(ev, start, batch, attempt, now, k - 1);
      if q.aborted {
        assert Run(ev, start, batch, attempt, now, k) == q;
        assert q.outbox == start.outbox + Handed(ev, batch, attempt, Completed(q) + 1);
      } else {
        var a := attempt(k - 1);
        var added := if RelayAccepts(a) then [EnvelopeFor(ev, batch[k - 1])] else [];
        StepFacts(ev, q, batch[k - 1], a, now);
        var p := Run(ev, start, batch, attempt, now, k);
        assert p == Step(ev, q, batch[k - 1], a, now);
        assert (if p.aborted then Completed(p) + 1 else Completed(p)) == k;
        assert Handed(ev, batch, attempt, k) == Handed(ev, batch, attempt, k - 1) + added;
        assert q.outbox == start.outbox + Handed(ev, batch, attempt, k - 1);
        AppendAssoc(start.outbox, Handed(ev, batch, attempt, k - 1), added);
        assert p.outbox == start.outbox + Handed(ev, batch, attempt, k);
      }
    } else {
      assert start.outbox + [] == start.outbox;
    }
  }

  /** After `k` turns every table row is its start row, settled by its
      attempt when its recipient is among the completed turns. */
  lemma {:induction false} RunRows(ev: Event, start: Progress, batch: seq<Recipient>,
                                   attempt: nat -> Attempt, now: Time, k: nat)
    requires k <= |batch| && UniqueIds(batch)
    requires start.sent == 0 && start.failed == 0 && !start.aborted
    ensures var p := Run(ev, start, batch, attempt, now, k);
            && Completed(p) <= k
            && |p.recipients| == |start.recipients|
            && forall i :: 0 <= i < |start.recipients| ==>
                 p.recipients[i] == SettledRow(start.recipients[i], batch, attempt, Completed(p), now)
  {
    RunCompleted(ev, start, batch, attempt, now, k);
    if k == 0 {
      assert batch[..0] == [];
    } else {
      RunRows(ev, start, batch, attempt, now, k - 1);
      RunCompleted(ev, start, batch, attempt, now, k - 1);
      var q := Run(ev, start, batch, attempt, now, k - 1);
      var p := Run(ev, start, batch, attempt, now, k);
      if q.aborted {
        assert p == q;
      } else {
        var a := attempt(k - 1);
        assert p == Step(ev, q, batch[k - 1], a, now);
        StepFacts(ev, q, batch[k - 1], a, now);
        if !a.FailedWriteThrew? {
          assert Completed(q) == k - 1;
          assert |p.recipients| == |q.recipients| == |start.recipients|;
          RowsStep(start.recipients, q.recipients, p.recipients, batch, attempt, k, now);
        }
      }
    }
  }

  // ---------------------------------------------------------------------------
  // Properties of one call

  /** Whether a call gets as far as the batch loop. */
  predicate ReachesLoop(events: seq<Event>, recipients: seq<Recipient>, eventId: Id, setup: Setup)
  {
    && setup != LookupThrows && setup != MarkSendingThrows && setup != FetchThrows
    && HasEvent(events, eventId) && |Batch(recipients, eventId)| > 0
  }

  /** A call that reaches the batch loop leaves the event SENDING and the rest
      to the loop. */
  lemma LoopOutcome(events: seq<Event>, recipients: seq<Recipient>, outbox: seq<Envelope>,
                    eventId: Id, now: Time, setup: Setup, attempt: nat -> Attempt)
    requires ReachesLoop(events, recipients, eventId, setup)
    ensures var batch := Batch(recipients, eventId);
            var p := Run(FindEvent(events, eventId).value, Progress(recipients, outbox, 0, 0, false),
                         batch, attempt, now, |batch|);
            Dispatch(events, recipients, outbox, eventId, now, setup, attempt)
              == Outcome(WithEventStatus(events, eventId, SENDING, now), p.recipients, p.outbox,
                         if p.aborted then BulkFailure(BulkSendFailed) else BulkSent(p.sent, p.failed))
  {
  }

  /** A call that stops before the loop writes no recipient and sends nothing. */
  lemma NoLoopOutcome(events: seq<Event>, recipients: seq<Recipient>, outbox: seq<Envelope>,
                      eventId: Id, now: Time, setup: Setup, attempt: nat -> Attempt)
    requires !ReachesLoop(events, recipients, eventId, setup)
    ensures var o := Dispatch(events, recipients, outbox, eventId, now, setup, attempt);
            o.recipients == recipients && o.outbox == outbox && !o.result.BulkSent?
  {
  }

  lemma BatchIsUnique(recipients: seq<Recipient>, eventId: Id)
    requires UniqueIds(recipients)
    ensures UniqueIds(Batch(recipients, eventId))
  {
    FilterKeepsUnique(recipients, (r: Recipient) => r.eventId == eventId && r.status == PENDING);
  }

  /** The batch: PENDING rows of this event, as many as there are up to the
      batch size, and every PENDING row of the event when they fit. */
  lemma BatchBounds(recipients: seq<Recipient>, eventId: Id)
    ensures var batch := Batch(recipients, eventId);
            var pending := PendingOf(recipients, eventId);
            && |batch| == (if |pending| < BatchSize then |pending| else BatchSize)
            && (forall j :: 0 <= j < |batch| ==>
                  batch[j] in recipients && batch[j].eventId == eventId && batch[j].status == PENDING)
            && (|pending| <= BatchSize ==>
                  forall i :: (0 <= i < |recipients| && recipients[i].eventId == eventId &&
                               recipients[i].status == PENDING) ==> recipients[i] in batch)
  {
    var batch, pending := Batch(recipients, eventId), PendingOf(recipients, eventId);
    forall j | 0 <= j < |batch|
      ensures batch[j] in recipients && batch[j].eventId == eventId && batch[j].status == PENDING
    {
      assert batch[j] == pending[j];
    }
  }

  /** A table row in the batch is the batch row at its position. */
  lemma BatchPosition(recipients: seq<Recipient>, batch: seq<Recipient>, i: nat, j: nat)
    requires UniqueIds(recipients) && UniqueIds(batch)
    requires forall k :: 0 <= k < |batch| ==> batch[k] in recipients
    requires i < |recipients| && j < |batch|
    ensures FindId(batch, recipients[i].id) == Some(j) <==> recipients[i] == batch[j]
  {
    var f := FindId(batch, recipients[i].id);
    if f == Some(j) {
      SameIdSameRow(recipients, i, batch[j]);
    }
    if recipients[i] == batch[j] {
      assert f.Some?;
      assert !(f.value < j) && !(j < f.value);
    }
  }

  /** One table row after `m` completed turns over a batch drawn from the
      table: untouched unless its recipient is among the first `m`, and then
      settled by that recipient's attempt. */
  lemma SettledRowIsBatchRow(recipients: seq<Recipient>, batch: seq<Recipient>, attempt: nat -> Attempt,
                             m: nat, now: Time, i: nat)
    requires UniqueIds(recipients) && UniqueIds(batch)
    requires forall k :: 0 <= k < |batch| ==> batch[k] in recipients
    requires m <= |batch| && i < |recipients|
    ensures var row := SettledRow(recipients[i], batch, attempt, m, now);
            && (recipients[i] !in batch ==> row == recipients[i])
            && (forall j :: 0 <= j < m && recipients[i] == batch[j] ==> row == Settle(batch[j], attempt(j), now))
            && (row == recipients[i] ||
                exists j :: 0 <= j < m && recipients[i] == batch[j] && row == Settle(batch[j], attempt(j), now))
  {
    var b := batch[..m];
    assert forall k :: 0 <= k < m ==> b[k] == batch[k];
    assert UniqueIds(b);
    match FindId(b, recipients[i].id)
    case None =>
    case Some(j) =>
      BatchPosition(recipients, b, i, j);
      forall j' | 0 <= j' < m && recipients[i] == batch[j'] ensures j' == j {
        BatchPosition(recipients, b, i, j');
      }
  }

  /** A table row after `m` completed turns over a batch of PENDING rows of
      `eventId`: untouched when outside the batch, settled when changed. */
  lemma SettledRowTouch(recipients: seq<Recipient>, batch: seq<Recipient>, attempt: nat -> Attempt,
                        m: nat, now: Time, i: nat, eventId: Id)
    requires UniqueIds(recipients) && UniqueIds(batch)
    requires forall k :: 0 <= k < |batch| ==>
               batch[k] in recipients && batch[k].eventId == eventId && batch[k].status == PENDING
    requires m <= |batch| && i < |recipients|
    requires forall j :: 0 <= j < m ==> !attempt(j).FailedWriteThrew?
    ensures var row := SettledRow(recipients[i], batch, attempt, m, now);
            && (recipients[i] !in batch ==> row == recipients[i])
            && (row != recipients[i] ==> SettledFrom(recipients[i], row, eventId))
  {
    SettledRowIsBatchRow(recipients, batch, attempt, m, now, i);
    var row := SettledRow(recipients[i], batch, attempt, m, now);
    if row != recipients[i] {
      var j :| 0 <= j < m && recipients[i] == batch[j] && row == Settle(batch[j], attempt(j), now);
      assert !attempt(j).FailedWriteThrew?;
    }
  }

  /** A table row after all turns of a batch that holds every PENDING row of
      `eventId` is not a PENDING row of `eventId`. */
  lemma SettledRowDrained(recipients: seq<Recipient>, batch: seq<Recipient>, attempt: nat -> Attempt,
                          now: Time, i: nat, eventId: Id)
    requires UniqueIds(recipients) && UniqueIds(batch)
    requires forall k :: 0 <= k < |batch| ==>
               batch[k] in recipients && batch[k].eventId == eventId && batch[k].status == PENDING
    requires i < |recipients|
    requires recipients[i].eventId == eventId && recipients[i].status == PENDING ==> recipients[i] in batch
    requires forall j :: 0 <= j < |batch| ==> !attempt(j).FailedWriteThrew?
    ensures var row := SettledRow(recipients[i], batch, attempt, |batch|, now);
            !(row.eventId == eventId && row.status == PENDING)
  {
    SettledRowTouch(recipients, batch, attempt, |batch|, now, i, eventId);
    if recipients[i].eventId == eventId && recipients[i].status == PENDING {
      var j :| 0 <= j < |batch| && batch[j] == recipients[i];
      SettledRowIsBatchRow(recipients, batch, attempt, |batch|, now, i);
      assert !attempt(j).FailedWriteThrew?;
    }
  }

  /** The table after the loop over the batch of `eventId`: each row of a
      completed turn is settled by that turn's attempt. */
  lemma LoopRows(recipients: seq<Recipient>, eventId: Id, ev: Event, outbox: seq<Envelope>,
                 now: Time, attempt: nat -> Attempt)
    requires UniqueIds(recipients)
    ensures var batch := Batch(recipients, eventId);
            var p := Run(ev, Progress(recipients, outbox, 0, 0, false), batch, attempt, now, |batch|);
            && Completed(p) <= |batch|
            && |p.recipients| == |recipients|
            && (forall i, j :: 0 <= i < |recipients| && 0 <= j < Completed(p) && recipients[i] == batch[j] ==>
                  p.recipients[i] == Settle(batch[j], attempt(j), now))
  {
    var batch := Batch(recipients, eventId);
    var start := Progress(recipients, outbox, 0, 0, false);
    BatchIsUnique(recipients, eventId);
    BatchBounds(recipients, eventId);
    RunRows(ev, start, batch, attempt, now, |batch|);
    var p := Run(ev, start, batch, attempt, now, |batch|);
    forall i, j | 0 <= i < |recipients| && 0 <= j < Completed(p) && recipients[i] == batch[j]
      ensures p.recipients[i] == Settle(batch[j], attempt(j), now)
    {
      SettledRowIsBatchRow(recipients, batch, attempt, Completed(p), now, i);
    }
  }

  /** A completed call: the counters add up to the batch size and count the
      deliveries; each batch row ends SENT with the send time or FAILED with the
      error text, all its other columns as they were; every other row is
      untouched; the outbox grew by the accepted envelopes in batch order. */
  lemma DispatchSettlesBatch(events: seq<Event>, recipients: seq<Recipient>, nextId: nat,
                             outbox: seq<Envelope>, eventId: Id, now: Time, setup: Setup,
                             attempt: nat -> Attempt)
    requires Consistent(events, recipients, nextId)
    ensures var o := Dispatch(events, recipients, outbox, eventId, now, setup, attempt);
            var batch := Batch(recipients, eventId);
            o.result.BulkSent? ==>
              && o.result.sent + o.result.failed == |batch|
              && o.result.sent == DeliveredCount(attempt, |batch|)
              && o.outbox == outbox + Handed(FindEvent(events, eventId).value, batch, attempt, |batch|)
              && |o.recipients| == |recipients|
              && (forall i :: 0 <= i < |recipients| && recipients[i] !in batch ==>
                    o.recipients[i] == recipients[i])
              && (forall i, j :: 0 <= i < |recipients| && 0 <= j < |batch| && recipients[i] == batch[j] ==>
                    o.recipients[i] == match attempt(j)
                                       case Delivered => batch[j].(status := SENT, sentAt := Some(now))
                                       case Refused(m) => batch[j].(status := FAILED, error := Some(ErrorText(m)))
                                       case SentWriteThrew(m) => batch[j].(status := FAILED, error := Some(ErrorText(m)))
                                       case FailedWriteThrew(_) => batch[j])
  {
    if ReachesLoop(events, recipients, eventId, setup) {
      var ev := FindEvent(events, eventId).value;
      var batch := Batch(recipients, eventId);
      var start := Progress(recipients, outbox, 0, 0, false);
      LoopOutcome(events, recipients, outbox, eventId, now, setup, attempt);
      RunCounts(ev, start, batch, attempt, now, |batch|);
      RunOutbox(ev, start, batch, attempt, now, |batch|);
      LoopRows(recipients, eventId, ev, outbox, now, attempt);
      LoopTouchesOnlyBatch(recipients, eventId, ev, outbox, now, attempt);
    } else {
      NoLoopOutcome(events, recipients, outbox, eventId, now, setup, attempt);
    }
  }

  /** A row the loop changes went from PENDING (of this event) to SENT or
      FAILED, keeping its id and its event. */
  predicate SettledFrom(before: Recipient, after: Recipient, eventId: Id)
  {
    && before.status == PENDING && before.eventId == eventId
    && (after.status == SENT || after.status == FAILED)
    && after.id == before.id && after.eventId == before.eventId
  }

  /** The loop changes no row outside the batch, and settles the rows it
      changes. */
  lemma LoopTouchesOnlyBatch(recipients: seq<Recipient>, eventId: Id, ev: Event, outbox: seq<Envelope>,
                             now: Time, attempt: nat -> Attempt)
    requires UniqueIds(recipients)
    ensures var batch := Batch(recipients, eventId);
            var p := Run(ev, Progress(recipients, outbox, 0, 0, false), batch, attempt, now, |batch|);
            && |p.recipients| == |recipients|
            && (forall i :: 0 <= i < |recipients| && recipients[i] !in batch ==> p.recipients[i] == recipients[i])
            && (forall i :: 0 <= i < |recipients| && p.recipients[i] != recipients[i] ==>
                  SettledFrom(recipients[i], p.recipients[i], eventId))
  {
    var batch := Batch(recipients, eventId);
    var start := Progress(recipients, outbox, 0, 0, false);
    var p := Run(ev, start, batch, attempt, now, |batch|);
    BatchIsUnique(recipients, eventId);
    BatchBounds(recipients, eventId);
    RunCounts(ev, start, batch, attempt, now, |batch|);
    RunRows(ev, start, batch, attempt, now, |batch|);
    forall i | 0 <= i < |recipients|
      ensures recipients[i] !in batch ==> p.recipients[i] == recipients[i]
      ensures p.recipients[i] != recipients[i] ==> SettledFrom(recipients[i], p.recipients[i], eventId)
    {
      SettledRowTouch(recipients, batch, attempt, Completed(p), now, i, eventId);
    }
  }

  /** Whatever the outcome, no row outside the batch changes, and a row that
      changes went from PENDING (of this event) to SENT or FAILED, keeping its
      id and its event. */
  lemma DispatchTouchesOnlyBatch(events: seq<Event>, recipients: seq<Recipient>, nextId: nat,
                                 outbox: seq<Envelope>, eventId: Id, now: Time, setup: Setup,
                                 attempt: nat -> Attempt)
    requires Consistent(events, recipients, nextId)
    ensures var o := Dispatch(events, recipients, outbox, eventId, now, setup, attempt);
            && |o.recipients| == |recipients|
            && (forall i :: 0 <= i < |recipients| && recipients[i] !in Batch(recipients, eventId) ==>
                  o.recipients[i] == recipients[i])
            && (forall i :: 0 <= i < |recipients| && o.recipients[i] != recipients[i] ==>
                  SettledFrom(recipients[i], o.recipients[i], eventId))
  {
    if ReachesLoop(events, recipients, eventId, setup) {
      LoopOutcome(events, recipients, outbox, eventId, now, setup, attempt);
      LoopTouchesOnlyBatch(recipients, eventId, FindEvent(events, eventId).value, outbox, now, attempt);
    } else {
      NoLoopOutcome(events, recipients, outbox, eventId, now, setup, attempt);
    }
  }

  /** A table with no PENDING row of the event has no pending recipients. */
  lemma {:induction false} NonePending(rs: seq<Recipient>, eventId: Id)
    requires forall i :: 0 <= i < |rs| ==> !(rs[i].eventId == eventId && rs[i].status == PENDING)
    ensures PendingOf(rs, eventId) == []
  {
    if |rs| > 0 {
      assert forall i :: 0 <= i < |rs[1..]| ==> rs[1..][i] == rs[i + 1];
      NonePending(rs[1..], eventId);
    }
  }

  /** When every PENDING row of the campaign fits in one batch, a loop that
      runs to the end leaves none of them PENDING. */
  lemma LoopDrains(recipients: seq<Recipient>, eventId: Id, ev: Event, outbox: seq<Envelope>,
                   now: Time, attempt: nat -> Attempt)
    requires UniqueIds(recipients)
    requires |PendingOf(recipients, eventId)| <= BatchSize
    ensures var batch := Batch(recipients, eventId);
            var p := Run(ev, Progress(recipients, outbox, 0, 0, false), batch, attempt, now, |batch|);
            !p.aborted ==> PendingOf(p.recipients, eventId) == []
  {
    var batch := Batch(recipients, eventId);
    var start := Progress(recipients, outbox, 0, 0, false);
    var p := Run(ev, start, batch, attempt, now, |batch|);
    if !p.aborted {
      BatchIsUnique(recipients, eventId);
      BatchBounds(recipients, eventId);
      RunCounts(ev, start, batch, attempt, now, |batch|);
      RunRows(ev, start, batch, attempt, now, |batch|);
      forall i | 0 <= i < |p.recipients|
        ensures !(p.recipients[i].eventId == eventId && p.recipients[i].status == PENDING)
      {
        SettledRowDrained(recipients, batch, attempt, now, i, eventId);
      }
      NonePending(p.recipients, eventId);
    }
  }

  /** When every PENDING row of the campaign fits in one batch, a completed call
      leaves none of them PENDING. */
  lemma DispatchDrains(events: seq<Event>, recipients: seq<Recipient>, nextId: nat,
                       outbox: seq<Envelope>, eventId: Id, now: Time, setup: Setup,
                       attempt: nat -> Attempt)
    requires Consistent(events, recipients, nextId)
    requires |PendingOf(recipients, eventId)| <= BatchSize
    ensures var o := Dispatch(events, recipients, outbox, eventId, now, setup, attempt);
            o.result.BulkSent? ==> PendingOf(o.recipients, eventId) == []
  {
    if ReachesLoop(events, recipients, eventId, setup) {
      LoopOutcome(events, recipients, outbox, eventId, now, setup, attempt);
      LoopDrains(recipients, eventId, FindEvent(events, eventId).value, outbox, now, attempt);
    } else {
      NoLoopOutcome(events, recipients, outbox, eventId, now, setup, attempt);
    }
  }

  /** A call that reaches the batch loop succeeds exactly when no FAILED write
      of the batch throws; otherwise it fails with the bulk-send error. */
  lemma DispatchSucceeds(events: seq<Event>, recipients: seq<Recipient>, outbox: seq<Envelope>,
                         eventId: Id, now: Time, setup: Setup, attempt: nat -> Attempt)
    requires ReachesLoop(events, recipients, eventId, setup)
    ensures var o := Dispatch(events, recipients, outbox, eventId, now, setup, attempt);
            && (o.result.BulkSent? <==>
                  forall j :: 0 <= j < |Batch(recipients, eventId)| ==> !attempt(j).FailedWriteThrew?)
            && (!o.result.BulkSent? ==> o.result == BulkFailure(BulkSendFailed))
  {
    var batch := Batch(recipients, eventId);
    var ev := FindEvent(events, eventId).value;
    var start := Progress(recipients, outbox, 0, 0, false);
    LoopOutcome(events, recipients, outbox, eventId, now, setup, attempt);
    RunCounts(ev, start, batch, attempt, now, |batch|);
  }

  /** A campaign with no PENDING recipient is marked COMPLETED, and no row is
      written and nothing sent. */
  lemma DispatchCompletesWhenNonePending(events: seq<Event>, recipients: seq<Recipient>, outbox: seq<Envelope>,
                                         eventId: Id, now: Time, attempt: nat -> Attempt)
    requires HasEvent(events, eventId)
    requires PendingOf(recipients, eventId) == []
    ensures var o := Dispatch(events, recipients, outbox, eventId, now, Healthy, attempt);
            && o.result == NothingPending(NoPendingMessage)
            && o.recipients == recipients && o.outbox == outbox
            && forall i :: 0 <= i < |events| ==>
                 o.events[i] == if events[i].id == eventId then events[i].(status := COMPLETED, updatedAt := now)
                                else events[i]
  {
    assert Batch(recipients, eventId) == [];
  }

  /** Calling the sender again after a call that drained the campaign finds
      nothing pending and marks the campaign COMPLETED. */
  lemma SecondDispatchCompletes(events: seq<Event>, recipients: seq<Recipient>, nextId: nat,
                                outbox: seq<Envelope>, eventId: Id, now: Time, setup: Setup,
                                attempt: nat -> Attempt, later: Time, attempt': nat -> Attempt)
    requires Consistent(events, recipients, nextId)
    requires |PendingOf(recipients, eventId)| <= BatchSize
    requires Dispatch(events, recipients, outbox, eventId, now, setup, attempt).result.BulkSent?
    ensures var o := Dispatch(events, recipients, outbox, eventId, now, setup, attempt);
            var o' := Dispatch(o.events, o.recipients, o.outbox, eventId, later, Healthy, attempt');
            && o'.result == NothingPending(NoPendingMessage)
            && o'.recipients == o.recipients
            && forall i :: 0 <= i < |o'.events| && o'.events[i].id == eventId ==> o'.events[i].status == COMPLETED
  {
    var o := Dispatch(events, recipients, outbox, eventId, now, setup, attempt);
    DispatchDrains(events, recipients, nextId, outbox, eventId, now, setup, attempt);
    var j :| 0 <= j < |events| && events[j].id == eventId;
    assert o.events[j].id == eventId;
    DispatchCompletesWhenNonePending(o.events, o.recipients, o.outbox, eventId, later, attempt');
  }
}
