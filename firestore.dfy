/**
 * The two Firestore collections the core writes: `users`, one document per uid, and
 * `readings`, appended to once per saved reading. A field that is `None` is a key the
 * document (or the patch) does not hold.
 */
module Firestore {
  import opened Common
  import PalmAnalysis

  /** A stored `users/<uid>` document; every key is optional in the store. */
  datatype Doc = Doc(
    email: Option<string>,
    displayName: Option<string>,
    isPremium: Option<bool>,
    subscriptionTier: Option<string>,
    readingsUsed: Option<int>,
    maxFreeReadings: Option<int>,
    stripeCustomerId: Option<string>,
    subscriptionId: Option<string>,
    subscriptionStatus: Option<string>,
    createdAt: Option<int>,
    updatedAt: Option<string>)

  const EmptyDoc: Doc := Doc(None, None, None, None, None, None, None, None, None, None, None)

  function Pick<T>(newer: Option<T>, older: Option<T>): (r: Option<T>)
    ensures newer.Some? ==> r == newer
    ensures newer.None? ==> r == older
  {
    if newer.Some? then newer else older
  }

  /**
   * The shallow merge of `setDoc(ref, patch, { merge: true })` and `updateDoc(ref, patch)`:
   * keys present in the patch take its values, the other keys keep the stored ones.
   */
  function Merge(base: Doc, patch: Doc): (merged: Doc)
    // every key: the patch's value when it holds the key, the stored value otherwise
    ensures merged.email == (if patch.email.Some? then patch.email else base.email)
    ensures merged.displayName == (if patch.displayName.Some? then patch.displayName else base.displayName)
    ensures merged.isPremium == (if patch.isPremium.Some? then patch.isPremium else base.isPremium)
    ensures merged.subscriptionTier == (if patch.subscriptionTier.Some? then patch.subscriptionTier else base.subscriptionTier)
    ensures merged.readingsUsed == (if patch.readingsUsed.Some? then patch.readingsUsed else base.readingsUsed)
    ensures merged.maxFreeReadings == (if patch.maxFreeReadings.Some? then patch.maxFreeReadings else base.maxFreeReadings)
    ensures merged.stripeCustomerId == (if patch.stripeCustomerId.Some? then patch.stripeCustomerId else base.stripeCustomerId)
    ensures merged.subscriptionId == (if patch.subscriptionId.Some? then patch.subscriptionId else base.subscriptionId)
    ensures merged.subscriptionStatus == (if patch.subscriptionStatus.Some? then patch.subscriptionStatus else base.subscriptionStatus)
    ensures merged.createdAt == (if patch.createdAt.Some? then patch.createdAt else base.createdAt)
    ensures merged.updatedAt == (if patch.updatedAt.Some? then patch.updatedAt else base.updatedAt)
    ensures patch == EmptyDoc ==> merged == base
  {
    Doc(
      Pick(patch.email, base.email),
      Pick(patch.displayName, base.displayName),
      Pick(patch.isPremium, base.isPremium),
      Pick(patch.subscriptionTier, base.subscriptionTier),
      Pick(patch.readingsUsed, base.readingsUsed),
      Pick(patch.maxFreeReadings, base.maxFreeReadings),
      Pick(patch.stripeCustomerId, base.stripeCustomerId),
      Pick(patch.subscriptionId, base.subscriptionId),
      Pick(patch.subscriptionStatus, base.subscriptionStatus),
      Pick(patch.createdAt, base.createdAt),
      Pick(patch.updatedAt, base.updatedAt))
  }

  /** Applying the same patch twice is applying it once. */
  lemma MergeIdempotent(base: Doc, patch: Doc)
    ensures Merge(Merge(base, patch), patch) == Merge(base, patch)
  {
  }

  /** Two successive merges are one merge of the combined patch. */
  lemma MergeSequential(base: Doc, p: Doc, q: Doc)
    ensures Merge(Merge(base, p), q) == Merge(base, Merge(p, q))
  {
  }

  /** The document stored for `uid`, or the empty one when there is none. */
  function DocOrEmpty(users: map<string, Doc>, uid: string): Doc {
    if uid in users then users[uid] else EmptyDoc
  }

  /** One document of the `readings` collection. */
  datatype ReadingRecord = ReadingRecord(
    userId: string,
    imageUrl: string,
    reading: PalmAnalysis.PalmReadingResult,
    createdAt: int,
    isPremium: bool)

  /** The database as one client sees it. */
  class Database {
    var users: map<string, Doc>
    var readings: seq<ReadingRecord>

    constructor (users: map<string, Doc>)
      ensures this.users == users && readings == []
    {
      this.users := users;
      readings := [];
    }
  }
}
