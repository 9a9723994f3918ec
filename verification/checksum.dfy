/** The payload checksum: what the API and the scheduler store with an event, and what the
    worker recomputes from the payload it reads back. The hash is any function of the text. */
module Checksum {
  import opened Json
  import opened CanonicalEquality

  type Digest = nat
  type Hash = Text -> Digest

  /** `EventService.produce`: the digest of the canonical text. */
  function ApiChecksum(hash: Hash, payload: Value): Digest {
    hash(CanonicalJson(payload))
  }

  /** `SchedulerService.fire`: the digest of the plain text. */
  function ScheduleChecksum(hash: Hash, payload: Value): Digest {
    hash(Stringify(payload))
  }

  /** `DeliveryService.checksumMatches`, on the payload as read back from `jsonb`. */
  predicate ChecksumMatches(hash: Hash, payload: Value, checksum: Digest) {
    hash(CanonicalJson(payload)) == checksum
  }

  ghost predicate Injective(hash: Hash) {
    forall s, t :: hash(s) == hash(t) ==> s == t
  }

  /** Whatever reordering the store does, a payload produced through the API passes the worker's
      check; with an injective hash nothing else does. */
  lemma {:induction false} ApiChecksumSurvivesStorage(hash: Hash, payload: Value, stored: Value)
    requires Valid(payload) && Valid(stored)
    ensures Equiv(payload, stored) ==> ChecksumMatches(hash, stored, ApiChecksum(hash, payload))
    ensures Injective(hash) && ChecksumMatches(hash, stored, ApiChecksum(hash, payload)) ==> Equiv(payload, stored)
  {
    CanonicalTextDecides(payload, stored);
  }

  /** A scheduled payload passes if its plain text is canonical, and with an injective hash only
      then, whatever reordering the store does after it was hashed. */
  lemma {:induction false} ScheduleChecksumCondition(hash: Hash, payload: Value, stored: Value)
    requires Valid(payload) && Valid(stored) && Equiv(payload, stored)
    ensures CanonicalOrder(payload) ==> ChecksumMatches(hash, stored, ScheduleChecksum(hash, payload))
    ensures Injective(hash) ==>
      (ChecksumMatches(hash, stored, ScheduleChecksum(hash, payload)) <==> CanonicalOrder(payload))
  {
    CanonicalTextDecides(payload, stored);
    StringifyIsCanonical(payload);
  }

  /** `{"b":null,"aa":null}`, listed as `jsonb` lists it: shorter keys first. */
  const SHORT_KEY_FIRST := Obj([Member([98], Null), Member([97, 97], Null)])

  /** The scheduler's plain checksum fails the worker's check on a payload in `jsonb` order. */
  lemma {:induction false} ScheduleChecksumCanFail(hash: Hash)
    requires Injective(hash)
    ensures Valid(SHORT_KEY_FIRST)
    ensures !ChecksumMatches(hash, SHORT_KEY_FIRST, ScheduleChecksum(hash, SHORT_KEY_FIRST))
  {
    var m := SHORT_KEY_FIRST.members;
    NamePartOfNames(m);
    assert !Less(m[0].key, m[1].key);
    EquivReflexive(SHORT_KEY_FIRST);
    ScheduleChecksumCondition(hash, SHORT_KEY_FIRST, SHORT_KEY_FIRST);
  }
}
