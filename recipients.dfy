/** Recipient ingestion: the parsed rows of an uploaded CSV file are checked,
    the rows with a usable email are turned into recipients of the campaign,
    and all of them go into the store in one bulk insert. */
module Recipients {
  import opened Schema
  import opened Query
  import opened Database

  const NoRecords := "No records found in CSV"
  const NoValidEmails := "No valid emails found"
  const ProcessFailed := "Failed to process CSV"

  /** What the CSV parser produced: the rows, each a column-to-value object in
      column order, or an exception. */
  datatype Parsed = Rows(rows: seq<Entries>) | ParseThrew

  /** A row is kept when its `email` value is present, non-empty and holds an `@`. */
  predicate Accepts(row: Entries)
  {
    match Lookup(row, "email")
    case None => false
    case Some(e) => e != "" && '@' in e
  }

  /** Acceptance in terms of the row's own entries. */
  lemma AcceptsIff(row: Entries)
    ensures Accepts(row) <==>
              exists i :: 0 <= i < |row| && row[i].0 == "email" && row[i].1 != "" && '@' in row[i].1
                          && forall j :: 0 <= j < i ==> row[j].0 != "email"
  {
    if Accepts(row) {
      var e := Lookup(row, "email").value;
      var i :| 0 <= i < |row| && row[i] == ("email", e) && forall j :: 0 <= j < i ==> row[j].0 != "email";
      assert row[i].0 == "email" && row[i].1 == e;
    } else {
      forall i | 0 <= i < |row| && row[i].0 == "email" && (forall j :: 0 <= j < i ==> row[j].0 != "email")
        ensures !(row[i].1 != "" && '@' in row[i].1)
      {
        var k :| 0 <= k < |row| && row[k] == ("email", Lookup(row, "email").value)
                 && forall j :: 0 <= j < k ==> row[j].0 != "email";
        assert !(k < i) && !(i < k);
      }
    }
  }

  /** The accepted rows, in upload order. */
  function ValidRows(rows: seq<Entries>): seq<Entries>
  {
    Filter(rows, Accepts)
  }

  /** Accepting is row by row: the accepted rows of two uploads back to back
      are those of the first followed by those of the second. */
  lemma ValidRowsAppend(a: seq<Entries>, b: seq<Entries>)
    ensures ValidRows(a + b) == ValidRows(a) + ValidRows(b)
  {
    FilterAppend(a, b, Accepts);
  }

  /** `row.name || null`: an absent or empty name is stored as null. */
  function NameOf(row: Entries): (n: Option<string>)
    ensures n.Some? <==> Lookup(row, "name").Some? && Lookup(row, "name").value != ""
    ensures n.Some? ==> n == Lookup(row, "name")
  {
    match Lookup(row, "name")
    case None => None
    case Some(v) => if v == "" then None else Some(v)
  }

  function ToInput(eventId: Id, row: Entries): RecipientInput
    requires Accepts(row)
  {
    RecipientInput(eventId, Lookup(row, "email").value, NameOf(row), row)
  }

  /** The insert data: one entry per accepted row. */
  function Inputs(eventId: Id, rows: seq<Entries>): (r: seq<RecipientInput>)
    requires forall i :: 0 <= i < |rows| ==> Accepts(rows[i])
    ensures |r| == |rows|
  {
    seq(|rows|, i requires 0 <= i < |rows| => ToInput(eventId, rows[i]))
  }

  /** The checks and the mapping that come before the insert. */
  function Prepare(eventId: Id, parsed: Parsed): (r: Result<seq<RecipientInput>>)
    ensures parsed.ParseThrew? ==> r == Failure(ProcessFailed)
    ensures parsed.Rows? && |parsed.rows| == 0 ==> r == Failure(NoRecords)
    ensures parsed.Rows? && |parsed.rows| > 0 ==>
              (r == Failure(NoValidEmails) <==> forall i :: 0 <= i < |parsed.rows| ==> !Accepts(parsed.rows[i]))
    ensures r.Success? <==> parsed.Rows? && exists i :: 0 <= i < |parsed.rows| && Accepts(parsed.rows[i])
    ensures r.Success? ==> parsed.Rows? && 0 < |r.value| <= |parsed.rows|
    ensures r.Success? ==>
              && |r.value| == |ValidRows(parsed.rows)|
              && forall i :: 0 <= i < |r.value| ==> r.value[i].metadata == ValidRows(parsed.rows)[i]
    ensures r.Success? ==>
              forall i :: 0 <= i < |r.value| ==>
                && r.value[i].eventId == eventId
                && r.value[i].email != "" && '@' in r.value[i].email
                && r.value[i].metadata in parsed.rows
                && Lookup(r.value[i].metadata, "email") == Some(r.value[i].email)
                && r.value[i].name == NameOf(r.value[i].metadata)
  {
    match parsed
    case ParseThrew => Failure(ProcessFailed)
    case Rows(rows) =>
      if |rows| == 0 then Failure(NoRecords)
      else
        var valid := ValidRows(rows);
        if |valid| == 0 then
          Failure(NoValidEmails)
        else
          Success(Inputs(eventId, valid))
  }

  /** The recipients an upload inserts, row by row: the accepted rows in upload
      order, each PENDING, with the campaign, the row's email, its name or
      null, the whole row as metadata, and consecutive fresh ids. */
  lemma InsertedRecipients(eventId: Id, rows: seq<Entries>, base: Id, now: Time)
    requires Prepare(eventId, Rows(rows)).Success?
    ensures var inserted := NewRecipients(Prepare(eventId, Rows(rows)).value, base, now);
            var valid := ValidRows(rows);
            && |inserted| == |valid|
            && forall i :: 0 <= i < |inserted| ==>
                 inserted[i] == Recipient(base + i, Lookup(valid[i], "email").value, NameOf(valid[i]),
                                          Some(valid[i]), eventId, PENDING, None, None, now)
  {
  }

  /** `uploadRecipients`. The store rejects the whole insert when the campaign
      does not exist or the insert throws (`storeThrows`). */
  method UploadRecipients(store: Store, eventId: Id, parsed: Parsed, now: Time, storeThrows: bool)
    returns (r: Result<nat>)
    requires store.Valid()
    modifies store
    ensures store.Valid()
    ensures store.events == old(store.events)
    ensures Prepare(eventId, parsed).Failure? ==>
              && r == Failure(Prepare(eventId, parsed).error)
              && store.recipients == old(store.recipients) && store.nextId == old(store.nextId)
    ensures Prepare(eventId, parsed).Success? && (storeThrows || !HasEvent(old(store.events), eventId)) ==>
              && r == Failure(ProcessFailed)
              && store.recipients == old(store.recipients) && store.nextId == old(store.nextId)
    ensures Prepare(eventId, parsed).Success? && !storeThrows && HasEvent(old(store.events), eventId) ==>
              && r == Success(|Prepare(eventId, parsed).value|)
              && store.recipients == old(store.recipients) + NewRecipients(Prepare(eventId, parsed).value, old(store.nextId), now)
              && store.nextId == old(store.nextId) + |Prepare(eventId, parsed).value|
  {
    var prepared := Prepare(eventId, parsed);
    if prepared.Failure? {
      return Failure(prepared.error);
    }
    if storeThrows {
      return Failure(ProcessFailed);
    }
    var inputs := prepared.value;
    assert inputs[0].eventId == eventId;
    var ok := store.CreateRecipients(inputs, now);
    if !ok {
      return Failure(ProcessFailed);
    }
    return Success(|inputs|);
  }
}
