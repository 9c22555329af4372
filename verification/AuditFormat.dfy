/** The semantic content of an audit event and the bytes that are hashed for it
    (src/common/audit.c:24-234). The bytes are uniquely decodable: they determine
    the predecessor digest and every field. */
module AuditFormat {
  import opened Base
  import opened BigEndian

  const HASH_SIZE: nat := 32
  const SOURCE_MAX: nat := 255
  const ACTION_MAX: nat := 128
  const OBJECT_TYPE_MAX: nat := 128
  const OBJECT_ID_MAX: nat := 255
  const DETAILS_MAX: nat := 4096
  const REQUEST_ID_MAX: nat := 128

  const SYSTEM: int := 1
  const USER: int := 2
  const TOKEN: int := 3
  const LOCAL: int := 4

  type Digest = d: seq<byte> | |d| == HASH_SIZE witness seq(HASH_SIZE, _ => 0)

  /** The predecessor of the first event. */
  function Zero(): Digest {
    seq(HASH_SIZE, _ => 0)
  }

  /** BLAKE2b, of which only the output size is used. */
  type Hash = seq<byte> -> Digest

  type Text = seq<byte>

  datatype Event = Event(
    occurredAt: u64,
    actor: int,
    actorId: Option<u64>,
    source: Text,
    action: Text,
    objectType: Text,
    objectId: Option<Text>,
    details: Text,
    previousRevision: Option<u64>,
    newRevision: Option<u64>,
    success: bool,
    requestId: Text)

  // ---- What may be hashed ----

  predicate ActorValid(actor: int, id: Option<u64>) {
    if actor == SYSTEM || actor == LOCAL then id.None?
    else (actor == USER || actor == TOKEN) && id.Some? && 0 < id.value <= INT64_MAX
  }

  predicate Sized(text: Text, minimum: nat, maximum: nat) {
    minimum <= |text| <= maximum
  }

  predicate TextsValid(event: Event) {
    && Sized(event.source, 1, SOURCE_MAX)
    && Sized(event.action, 1, ACTION_MAX)
    && Sized(event.objectType, 1, OBJECT_TYPE_MAX)
    && (event.objectId.Some? ==> Sized(event.objectId.value, 1, OBJECT_ID_MAX))
    && Sized(event.details, 0, DETAILS_MAX)
    && Sized(event.requestId, 0, REQUEST_ID_MAX)
  }

  predicate RevisionValid(revision: Option<u64>) {
    revision.Some? ==> 0 < revision.value <= INT64_MAX
  }

  /** An event that append accepts and verification reads back. */
  predicate Valid(event: Event) {
    && ActorValid(event.actor, event.actorId) && TextsValid(event)
    && event.occurredAt <= INT64_MAX
    && RevisionValid(event.previousRevision) && RevisionValid(event.newRevision)
  }

  /** Past the signed range in an event whose actor is valid and whose revisions
      are not zero; the texts are looked at later. */
  predicate Overflows(event: Event) {
    && ActorValid(event.actor, event.actorId)
    && event.previousRevision != Some(0) && event.newRevision != Some(0)
    && (event.occurredAt > INT64_MAX || !RevisionValid(event.previousRevision) || !RevisionValid(event.newRevision))
  }

  /** `event_material`, in the order of its tests. */
  method CheckEvent(event: Event) returns (r: Result<()>)
    ensures r.Ok? <==> Valid(event)
    ensures r.Err? ==> r.error == if Overflows(event) then EOVERFLOW else EINVAL
  {
    if !ActorValid(event.actor, event.actorId) { return Err(EINVAL); }
    if event.previousRevision == Some(0) || event.newRevision == Some(0) { return Err(EINVAL); }
    if event.occurredAt > INT64_MAX || (event.previousRevision.Some? && event.previousRevision.value > INT64_MAX)
       || (event.newRevision.Some? && event.newRevision.value > INT64_MAX) {
      return Err(EOVERFLOW);
    }
    if !TextsValid(event) { return Err(EINVAL); }
    r := Ok(());
  }

  // ---- The hashed bytes ----

  /** The format tag and version. */
  const TAG: seq<byte> := [0x4a, 0x47, 0x41, 0x55, 0x44, 0x49, 0x54, 1]

  function Flag(b: bool): seq<byte> {
    [if b then 1 else 0]
  }

  function PrefixedText(text: Text): seq<byte> {
    Bytes(|text|, 4) + text
  }

  function OptionalText(text: Option<Text>): seq<byte> {
    if text.Some? then [1] + PrefixedText(text.value) else [0]
  }

  function OptionalU64(value: Option<u64>): seq<byte> {
    if value.Some? then [1] + Bytes(value.value, 8) else [0]
  }

  function Encode(previous: Digest, event: Event): seq<byte>
    requires 0 <= event.actor < 256
  {
    TAG + (previous + (Bytes(event.occurredAt, 8) + ([event.actor] + (OptionalU64(event.actorId) + Texts(event)))))
  }

  function Texts(event: Event): seq<byte> {
    PrefixedText(event.source) + (PrefixedText(event.action) + (PrefixedText(event.objectType)
      + (OptionalText(event.objectId) + (PrefixedText(event.details) + Outcome(event)))))
  }

  function Outcome(event: Event): seq<byte> {
    OptionalU64(event.previousRevision) + (OptionalU64(event.newRevision)
      + (Flag(event.success) + PrefixedText(event.requestId)))
  }

  // ---- Taking the bytes apart again ----

  lemma PeelFixed(a: seq<byte>, b: seq<byte>, x: seq<byte>, y: seq<byte>)
    requires |a| == |b| && a + x == b + y
    ensures a == b && x == y
  {
    assert a == (a + x)[..|a|] == (b + y)[..|b|] == b;
    assert x == (a + x)[|a|..] == (b + y)[|b|..] == y;
  }

  lemma PeelText(a: Text, b: Text, x: seq<byte>, y: seq<byte>)
    requires |a| < 0x1_0000_0000 && |b| < 0x1_0000_0000 && PrefixedText(a) + x == PrefixedText(b) + y
    ensures a == b && x == y
  {
    assert PrefixedText(a) + x == Bytes(|a|, 4) + (a + x) && PrefixedText(b) + y == Bytes(|b|, 4) + (b + y);
    PeelFixed(Bytes(|a|, 4), Bytes(|b|, 4), a + x, b + y);
    Limits();
    BytesInjective(|a|, |b|, 4);
    PeelFixed(a, b, x, y);
  }

  lemma PeelU64(a: u64, b: u64, x: seq<byte>, y: seq<byte>)
    requires Bytes(a, 8) + x == Bytes(b, 8) + y
    ensures a == b && x == y
  {
    PeelFixed(Bytes(a, 8), Bytes(b, 8), x, y);
    Limits();
    BytesInjective(a, b, 8);
  }

  /** The presence flag. */
  lemma PeelFlag(a: seq<byte>, b: seq<byte>, x: seq<byte>, y: seq<byte>)
    requires a != [] && b != [] && a + x == b + y
    ensures a[0] == b[0] && a[1..] + x == b[1..] + y
  {
    assert a + x == [a[0]] + (a[1..] + x) && b + y == [b[0]] + (b[1..] + y);
    PeelFixed([a[0]], [b[0]], a[1..] + x, b[1..] + y);
  }

  lemma PeelOptionalU64(a: Option<u64>, b: Option<u64>, x: seq<byte>, y: seq<byte>)
    requires OptionalU64(a) + x == OptionalU64(b) + y
    ensures a == b && x == y
  {
    PeelFlag(OptionalU64(a), OptionalU64(b), x, y);
    if a.Some? {
      assert OptionalU64(a)[1..] == Bytes(a.value, 8) && OptionalU64(b)[1..] == Bytes(b.value, 8);
      PeelU64(a.value, b.value, x, y);
    } else {
      assert OptionalU64(a)[1..] + x == x && OptionalU64(b)[1..] + y == y;
    }
  }

  lemma PeelOptionalText(a: Option<Text>, b: Option<Text>, x: seq<byte>, y: seq<byte>)
    requires a.Some? ==> |a.value| < 0x1_0000_0000
    requires b.Some? ==> |b.value| < 0x1_0000_0000
    requires OptionalText(a) + x == OptionalText(b) + y
    ensures a == b && x == y
  {
    PeelFlag(OptionalText(a), OptionalText(b), x, y);
    if a.Some? {
      assert OptionalText(a)[1..] == PrefixedText(a.value) && OptionalText(b)[1..] == PrefixedText(b.value);
      PeelText(a.value, b.value, x, y);
    } else {
      assert OptionalText(a)[1..] + x == x && OptionalText(b)[1..] + y == y;
    }
  }

  lemma OutcomesDecode(a: Event, b: Event)
    requires TextsValid(a) && TextsValid(b) && Outcome(a) == Outcome(b)
    ensures a.previousRevision == b.previousRevision && a.newRevision == b.newRevision
    ensures a.success == b.success && a.requestId == b.requestId
  {
    var x, y := PrefixedText(a.requestId), PrefixedText(b.requestId);
    PeelOptionalU64(a.previousRevision, b.previousRevision, OptionalU64(a.newRevision) + (Flag(a.success) + x),
                    OptionalU64(b.newRevision) + (Flag(b.success) + y));
    PeelOptionalU64(a.newRevision, b.newRevision, Flag(a.success) + x, Flag(b.success) + y);
    PeelFixed(Flag(a.success), Flag(b.success), x, y);
    assert x == x + [] && y == y + [];
    PeelText(a.requestId, b.requestId, [], []);
  }

  lemma TextsDecode(a: Event, b: Event)
    requires TextsValid(a) && TextsValid(b) && Texts(a) == Texts(b)
    ensures a.source == b.source && a.action == b.action && a.objectType == b.objectType
    ensures a.objectId == b.objectId && a.details == b.details && Outcome(a) == Outcome(b)
  {
    var a4, b4 := PrefixedText(a.details) + Outcome(a), PrefixedText(b.details) + Outcome(b);
    var a3, b3 := OptionalText(a.objectId) + a4, OptionalText(b.objectId) + b4;
    var a2, b2 := PrefixedText(a.objectType) + a3, PrefixedText(b.objectType) + b3;
    PeelText(a.source, b.source, PrefixedText(a.action) + a2, PrefixedText(b.action) + b2);
    PeelText(a.action, b.action, a2, b2);
    PeelText(a.objectType, b.objectType, a3, b3);
    PeelOptionalText(a.objectId, b.objectId, a4, b4);
    PeelText(a.details, b.details, Outcome(a), Outcome(b));
  }

  /** Equal bytes come from equal predecessors and equal events. */
  lemma UniquelyDecodable(p: Digest, a: Event, q: Digest, b: Event)
    requires Valid(a) && Valid(b) && Encode(p, a) == Encode(q, b)
    ensures p == q && a == b
  {
    var a2, b2 := OptionalU64(a.actorId) + Texts(a), OptionalU64(b.actorId) + Texts(b);
    var a1, b1 := Bytes(a.occurredAt, 8) + ([a.actor] + a2), Bytes(b.occurredAt, 8) + ([b.actor] + b2);
    PeelFixed(TAG, TAG, p + a1, q + b1);
    PeelFixed(p, q, a1, b1);
    PeelU64(a.occurredAt, b.occurredAt, [a.actor] + a2, [b.actor] + b2);
    PeelFixed([a.actor], [b.actor], a2, b2);
    PeelOptionalU64(a.actorId, b.actorId, Texts(a), Texts(b));
    TextsDecode(a, b);
    OutcomesDecode(a, b);
  }
}
