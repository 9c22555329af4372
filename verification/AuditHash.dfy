/** The digest of an event, computed as the source does: piece by piece into a
    running hash state (src/common/audit.c:152-234). */
module AuditHash {
  import opened Base
  import opened BigEndian
  import opened AuditFormat

  /** A running hash: what it has absorbed so far. */
  class HashState {
    var absorbed: seq<byte>

    constructor ()
      ensures absorbed == []
    {
      absorbed := [];
    }

    method Update(data: seq<byte>)
      modifies this
      ensures absorbed == old(absorbed) + data
    {
      absorbed := absorbed + data;
    }

    method UpdateU64(value: u64)
      modifies this
      ensures absorbed == old(absorbed) + Bytes(value, 8)
    {
      var encoded := new byte[8];
      var ok := WriteU64(encoded, 0, value);
      assert encoded[..] == Bytes(value, 8);
      Update(encoded[..]);
    }

    method UpdateText(text: Text)
      requires |text| < 0x1_0000_0000
      modifies this
      ensures absorbed == old(absorbed) + PrefixedText(text)
    {
      var encoded := new byte[4];
      var ok := WriteU32(encoded, 0, |text|);
      assert encoded[..] == Bytes(|text|, 4);
      Update(encoded[..]);
      if |text| > 0 { Update(text); }
      Associate(old(absorbed), Bytes(|text|, 4), text);
    }

    method UpdateOptionalText(text: Option<Text>)
      requires text.Some? ==> |text.value| < 0x1_0000_0000
      modifies this
      ensures absorbed == old(absorbed) + OptionalText(text)
    {
      Update(Flag(text.Some?));
      if text.Some? {
        UpdateText(text.value);
        Associate(old(absorbed), [1], PrefixedText(text.value));
      }
    }

    method UpdateOptionalU64(value: Option<u64>)
      modifies this
      ensures absorbed == old(absorbed) + OptionalU64(value)
    {
      Update(Flag(value.Some?));
      if value.Some? {
        UpdateU64(value.value);
        Associate(old(absorbed), [1], Bytes(value.value, 8));
      }
    }

    method UpdateOutcome(event: Event)
      requires TextsValid(event)
      modifies this
      ensures absorbed == old(absorbed) + Outcome(event)
    {
      ghost var start := absorbed;
      UpdateOptionalU64(event.previousRevision);
      UpdateOptionalU64(event.newRevision);
      Update(Flag(event.success));
      UpdateText(event.requestId);
      ghost var r1 := Flag(event.success) + PrefixedText(event.requestId);
      ghost var s1 := start + OptionalU64(event.previousRevision);
      Associate(s1 + OptionalU64(event.newRevision), Flag(event.success), PrefixedText(event.requestId));
      Associate(s1, OptionalU64(event.newRevision), r1);
      Associate(start, OptionalU64(event.previousRevision), OptionalU64(event.newRevision) + r1);
    }

    method UpdateTexts(event: Event)
      requires TextsValid(event)
      modifies this
      ensures absorbed == old(absorbed) + Texts(event)
    {
      ghost var start := absorbed;
      UpdateText(event.source);
      ghost var s1 := absorbed;
      UpdateText(event.action);
      ghost var s2 := absorbed;
      UpdateText(event.objectType);
      ghost var s3 := absorbed;
      UpdateOptionalText(event.objectId);
      ghost var s4 := absorbed;
      UpdateText(event.details);
      UpdateOutcome(event);
      ghost var r4 := PrefixedText(event.details) + Outcome(event);
      ghost var r3 := OptionalText(event.objectId) + r4;
      ghost var r2 := PrefixedText(event.objectType) + r3;
      Associate(s4, PrefixedText(event.details), Outcome(event));
      Associate(s3, OptionalText(event.objectId), r4);
      Associate(s2, PrefixedText(event.objectType), r3);
      Associate(s1, PrefixedText(event.action), r2);
      Associate(start, PrefixedText(event.source), PrefixedText(event.action) + r2);
    }
  }

  lemma Associate(a: seq<byte>, b: seq<byte>, c: seq<byte>)
    ensures (a + b) + c == a + (b + c)
  {
  }

  /** `compute_event_hash`: the digest of the canonical bytes. */
  method ComputeEventHash(hash: Hash, previous: Digest, event: Event) returns (digest: Digest)
    requires 0 <= event.actor < 256 && TextsValid(event)
    ensures digest == hash(Encode(previous, event))
  {
    var state := new HashState();
    state.Update(TAG);
    assert state.absorbed == TAG;
    state.Update(previous);
    ghost var s1 := state.absorbed;
    state.UpdateU64(event.occurredAt);
    ghost var s2 := state.absorbed;
    state.Update([event.actor]);
    ghost var s3 := state.absorbed;
    state.UpdateOptionalU64(event.actorId);
    state.UpdateTexts(event);
    ghost var r3 := OptionalU64(event.actorId) + Texts(event);
    ghost var r2 := [event.actor] + r3;
    Associate(s3, OptionalU64(event.actorId), Texts(event));
    Associate(s2, [event.actor], r3);
    Associate(s1, Bytes(event.occurredAt, 8), r2);
    Associate(TAG, previous, Bytes(event.occurredAt, 8) + r2);
    digest := hash(state.absorbed);
  }
}
