/** The audit table: appending to it, verifying it, and why a verified chain
    cannot be rewritten (src/common/audit.c:237-272, 420-469, 567-596, 765-862).
    Rows are held in the order of their identifiers. */
module AuditChain {
  import opened Base
  import opened AuditFormat
  import opened AuditHash

  /** A row of the STRICT table; integers are signed, blobs may have any size. */
  datatype Row = Row(
    id: int,
    occurredAt: int,
    actorType: Text,
    actorId: Option<int>,
    action: Text,
    objectType: Text,
    objectId: Option<Text>,
    details: Text,
    previousHash: Option<seq<byte>>,
    eventHash: seq<byte>,
    source: Text,
    previousRevision: Option<int>,
    newRevision: Option<int>,
    success: int,
    requestId: Text)

  // ---- Rows and events ----

  const SYSTEM_NAME: Text := [0x73, 0x79, 0x73, 0x74, 0x65, 0x6d]
  const USER_NAME: Text := [0x75, 0x73, 0x65, 0x72]
  const TOKEN_NAME: Text := [0x74, 0x6f, 0x6b, 0x65, 0x6e]
  const LOCAL_NAME: Text := [0x6c, 0x6f, 0x63, 0x61, 0x6c]

  function ActorName(actor: int): Text {
    if actor == SYSTEM then SYSTEM_NAME
    else if actor == USER then USER_NAME
    else if actor == TOKEN then TOKEN_NAME
    else LOCAL_NAME
  }

  /** Zero for a name that is none of the four. */
  function ParseActor(name: Text): int {
    if name == SYSTEM_NAME then SYSTEM
    else if name == USER_NAME then USER
    else if name == TOKEN_NAME then TOKEN
    else if name == LOCAL_NAME then LOCAL
    else 0
  }

  predicate Stored(value: int) {
    0 <= value <= INT64_MAX
  }

  predicate OptionalStored(value: Option<int>) {
    value.Some? ==> 0 < value.value <= INT64_MAX
  }

  /** `read_material`: the event of a row, if the row is well formed. */
  function Material(row: Row): Option<Event> {
    if 0 < row.id <= INT64_MAX && Stored(row.occurredAt) && OptionalStored(row.actorId)
       && OptionalStored(row.previousRevision) && OptionalStored(row.newRevision) && 0 <= row.success <= 1
    then
      var event := Event(row.occurredAt, ParseActor(row.actorType), row.actorId, row.source, row.action, row.objectType,
                         row.objectId, row.details, row.previousRevision, row.newRevision, row.success != 0,
                         row.requestId);
      if ActorValid(event.actor, event.actorId) && TextsValid(event) then Some(event) else None
    else None
  }

  function NewRow(id: int, event: Event, previous: Option<Digest>, digest: Digest): Row {
    Row(id, event.occurredAt, ActorName(event.actor), event.actorId, event.action, event.objectType, event.objectId,
        event.details, previous, digest, event.source, event.previousRevision, event.newRevision,
        if event.success then 1 else 0, event.requestId)
  }

  /** A written row reads back as its event. */
  lemma MaterialOfNewRow(id: int, event: Event, previous: Option<Digest>, digest: Digest)
    requires Valid(event) && 0 < id <= INT64_MAX
    ensures Material(NewRow(id, event, previous, digest)) == Some(event)
  {
  }

  lemma MaterialIsValid(row: Row)
    requires Material(row).Some?
    ensures Valid(Material(row).value)
  {
  }

  /** Two rows that read as the same event and carry the same digests differ at
      most in their identifiers. */
  lemma RowOfMaterial(a: Row, b: Row)
    requires Material(a).Some? && Material(a) == Material(b)
    requires a.previousHash == b.previousHash && a.eventHash == b.eventHash
    ensures a == b.(id := a.id)
  {
  }

  // ---- Verification ----

  /** The digest a row must link to. */
  function Previous(rows: seq<Row>, i: nat): seq<byte>
    requires i <= |rows|
  {
    if i == 0 then Zero() else rows[i - 1].eventHash
  }

  /** Well formed, linked to its predecessor and correctly hashed. */
  predicate RowOk(hash: Hash, first: bool, previous: seq<byte>, row: Row) {
    && Material(row).Some?
    && (if first then row.previousHash.None? else row.previousHash == Some(previous))
    && |previous| == HASH_SIZE
    && row.eventHash == hash(Encode(previous, Material(row).value))
  }

  predicate OkAt(hash: Hash, rows: seq<Row>, i: nat)
    requires i < |rows|
  {
    RowOk(hash, i == 0, Previous(rows, i), rows[i])
  }

  predicate ChainOk(hash: Hash, rows: seq<Row>) {
    forall i :: 0 <= i < |rows| ==> OkAt(hash, rows, i)
  }

  datatype Report = Report(valid: bool, inspected: nat, firstInvalidId: int)

  /** The identifier reported for a bad row. */
  function ReportedId(row: Row): int {
    if row.id > 0 then row.id else 0
  }

  /** The report names the earliest bad row and nothing else. */
  predicate Reports(hash: Hash, rows: seq<Row>, report: Report) {
    if report.valid then
      ChainOk(hash, rows) && report.inspected == |rows| && report.firstInvalidId == 0
    else
      && 1 <= report.inspected <= |rows|
      && !OkAt(hash, rows, report.inspected - 1)
      && (forall i :: 0 <= i < report.inspected - 1 ==> OkAt(hash, rows, i))
      && report.firstInvalidId == ReportedId(rows[report.inspected - 1])
  }

  lemma ReportIsUnique(hash: Hash, rows: seq<Row>, a: Report, b: Report)
    requires Reports(hash, rows, a) && Reports(hash, rows, b)
    ensures a == b
  {
  }

  /** `verify_row`. */
  method VerifyRow(hash: Hash, first: bool, previous: Digest, row: Row) returns (valid: bool, next: seq<byte>)
    ensures valid == RowOk(hash, first, previous, row)
    ensures valid ==> next == row.eventHash
  {
    next := [];
    var material := Material(row);
    valid := material.Some?;
    if valid {
      if first {
        valid := row.previousHash.None?;
      } else {
        valid := row.previousHash.Some? && |row.previousHash.value| == HASH_SIZE && row.previousHash.value == previous;
      }
    }
    if valid { valid := |row.eventHash| == HASH_SIZE; }
    if valid {
      var computed := ComputeEventHash(hash, previous, material.value);
      valid := row.eventHash == computed;
    }
    if valid { next := row.eventHash; }
  }

  // ---- Appending ----

  predicate NewDigest(hash: Hash, rows: seq<Row>, event: Event)
    requires Valid(event) && |Previous(rows, |rows|)| == HASH_SIZE
  {
    var digest := hash(Encode(Previous(rows, |rows|), event));
    forall i :: 0 <= i < |rows| ==> rows[i].eventHash != digest
  }

  /** When an event can be appended: the newest digest is usable and the new one
      does not occur yet, which its column refuses. */
  predicate Appendable(hash: Hash, rows: seq<Row>, event: Event, id: int) {
    Valid(event) && 0 < id <= INT64_MAX && |Previous(rows, |rows|)| == HASH_SIZE && NewDigest(hash, rows, event)
  }

  /** The row that links to the newest one. */
  function NextRow(hash: Hash, rows: seq<Row>, event: Event, id: int): Row
    requires Valid(event) && |Previous(rows, |rows|)| == HASH_SIZE
  {
    NewRow(id, event, if rows == [] then None else Some(Previous(rows, |rows|)),
           hash(Encode(Previous(rows, |rows|), event)))
  }

  class AuditLog {
    var rows: seq<Row>

    constructor ()
      ensures rows == []
    {
      rows := [];
    }

    /** `jg_database_audit_verify`. */
    method Verify(hash: Hash) returns (report: Report)
      ensures Reports(hash, rows, report)
    {
      var previous: Digest := Zero();
      var first := true;
      report := Report(true, 0, 0);
      var i := 0;
      while report.valid && i < |rows|
        invariant i <= |rows| && report.inspected == i
        invariant report.valid ==> report.firstInvalidId == 0
        invariant report.valid ==> first == (i == 0) && previous == Previous(rows, i)
        invariant report.valid ==> forall k :: 0 <= k < i ==> OkAt(hash, rows, k)
        invariant !report.valid ==> Reports(hash, rows, report)
      {
        var valid, next := VerifyRow(hash, first, previous, rows[i]);
        assert valid == OkAt(hash, rows, i);
        report := report.(inspected := i + 1);
        if !valid {
          report := report.(valid := false, firstInvalidId := ReportedId(rows[i]));
        } else {
          previous := next;
          first := false;
        }
        i := i + 1;
      }
    }

    /** `jg_database_audit_append`. SQLite assigns `id`, past every other. */
    method Append(hash: Hash, event: Event, id: int) returns (r: Result<(int, Digest, Digest)>)
      requires id <= INT64_MAX && forall i :: 0 <= i < |rows| ==> rows[i].id < id
      modifies this
      ensures r.Ok? <==> Appendable(hash, old(rows), event, id)
      ensures r.Ok? ==> rows == old(rows) + [NextRow(hash, old(rows), event, id)]
                        && r.value == (id, Previous(old(rows), |old(rows)|), rows[|rows| - 1].eventHash)
      ensures r.Err? ==> rows == old(rows)
      ensures !Valid(event) ==> r == Err(if Overflows(event) then EOVERFLOW else EINVAL)
      ensures Valid(event) && r.Err? ==>
                r.error == if |Previous(rows, |rows|)| != HASH_SIZE then EILSEQ
                           else if !NewDigest(hash, rows, event) then EIO else EOVERFLOW
    {
      var checked := CheckEvent(event);
      if checked.Err? { return Err(checked.error); }
      var previous: Digest := Zero();
      if |rows| > 0 {
        var latest := rows[|rows| - 1].eventHash;
        if |latest| != HASH_SIZE { return Err(EILSEQ); }
        previous := latest;
      }
      var digest := ComputeEventHash(hash, previous, event);
      if exists i :: 0 <= i < |rows| && rows[i].eventHash == digest { return Err(EIO); }
      var row := NewRow(id, event, if rows == [] then None else Some(previous), digest);
      if id <= 0 { return Err(EOVERFLOW); }
      rows := rows + [row];
      r := Ok((id, previous, digest));
    }
  }
}
