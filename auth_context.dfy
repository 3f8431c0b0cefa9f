/**
 * The user-profile state of `src/contexts/AuthContext.tsx`: the profile document written
 * at sign-up, the `||`-defaulting that turns a stored document into a `UserProfile`,
 * the shallow merge of `updateUserProfile`, and the auth-state listener that keeps
 * `user`, `userProfile` and `loading`. Firebase Auth itself (password checks, account
 * creation) is abstract: its outcomes are parameters.
 */
module AuthContext {
  import opened Common
  import opened Firestore

  /** The part of a Firebase `User` the core reads. */
  datatype AuthUser = AuthUser(uid: string, email: Option<string>)

  datatype UserProfile = UserProfile(
    uid: string,
    email: Option<string>,
    displayName: Option<string>,
    isPremium: bool,
    subscriptionTier: string,
    readingsUsed: int,
    maxFreeReadings: int,
    stripeCustomerId: Option<string>,
    subscriptionId: Option<string>,
    subscriptionStatus: Option<string>,
    createdAt: int,
    updatedAt: Option<string>)

  /** `userProfile?.isPremium || false`: a missing profile is not premium. */
  function IsPremium(p: Option<UserProfile>): (premium: bool)
    ensures premium ==> p.Some?
    ensures p.Some? ==> (premium <==> p.value.isPremium)
  {
    p.Some? && p.value.isPremium
  }

  // JavaScript `value || fallback` for the value kinds a document holds:
  // `false`, `""`, `0` and a missing key all give the fallback.

  function OrBool(v: Option<bool>, fallback: bool): bool {
    if v.Some? && v.value then true else fallback
  }

  function OrString(v: Option<string>, fallback: string): string {
    if v.Some? && v.value != "" then v.value else fallback
  }

  function OrInt(v: Option<int>, fallback: int): int {
    if v.Some? && v.value != 0 then v.value else fallback
  }

  /** The document `signUp` writes for a new account; `displayName` defaults to `''`. */
  function NewUserDoc(email: Option<string>, displayName: Option<string>, now: int): (d: Doc)
    ensures d.isPremium == Some(false) && d.subscriptionTier == Some("free")
    ensures d.readingsUsed == Some(0) && d.maxFreeReadings == Some(1)
    ensures d.email == email
    // `displayName || ''`: a non-empty name is stored, anything else becomes `''`
    ensures displayName.Some? && displayName.value != "" ==> d.displayName == displayName
    ensures displayName.None? || displayName.value == "" ==> d.displayName == Some("")
    ensures d.createdAt == Some(now)
    ensures d.stripeCustomerId.None? && d.subscriptionId.None? && d.subscriptionStatus.None?
  {
    Doc(
      email := email,
      displayName := Some(OrString(displayName, "")),
      isPremium := Some(false),
      subscriptionTier := Some("free"),
      readingsUsed := Some(0),
      maxFreeReadings := Some(1),
      stripeCustomerId := None,
      subscriptionId := None,
      subscriptionStatus := None,
      createdAt := Some(now),
      updatedAt := None)
  }

  /** The profile `loadUserProfile` builds from an existing document, `now` standing for `new Date()`. */
  function ProfileFromDoc(uid: string, d: Doc, now: int): (p: UserProfile)
    ensures p.uid == uid
    ensures p.isPremium <==> d.isPremium == Some(true)
    ensures p.subscriptionTier != ""
    ensures p.maxFreeReadings != 0
    // each `||`: a truthy stored value is kept, a missing or falsy one gives the default
    ensures d.readingsUsed.Some? && d.readingsUsed.value != 0 ==> p.readingsUsed == d.readingsUsed.value
    ensures d.readingsUsed.None? || d.readingsUsed.value == 0 ==> p.readingsUsed == 0
    ensures d.maxFreeReadings.Some? && d.maxFreeReadings.value != 0 ==> p.maxFreeReadings == d.maxFreeReadings.value
    ensures d.maxFreeReadings.None? || d.maxFreeReadings.value == 0 ==> p.maxFreeReadings == 1
    ensures d.subscriptionTier.Some? && d.subscriptionTier.value != "" ==> p.subscriptionTier == d.subscriptionTier.value
    ensures d.subscriptionTier.None? || d.subscriptionTier.value == "" ==> p.subscriptionTier == "free"
    // the spread copies the other keys as stored; a missing `createdAt` is the load time
    ensures p.email == d.email && p.displayName == d.displayName && p.updatedAt == d.updatedAt
    ensures p.stripeCustomerId == d.stripeCustomerId && p.subscriptionId == d.subscriptionId
    ensures p.subscriptionStatus == d.subscriptionStatus
    ensures p.createdAt == (if d.createdAt.Some? then d.createdAt.value else now)
  {
    UserProfile(
      uid := uid,
      email := d.email,
      displayName := d.displayName,
      isPremium := OrBool(d.isPremium, false),
      subscriptionTier := OrString(d.subscriptionTier, "free"),
      readingsUsed := OrInt(d.readingsUsed, 0),
      maxFreeReadings := OrInt(d.maxFreeReadings, 1),
      stripeCustomerId := d.stripeCustomerId,
      subscriptionId := d.subscriptionId,
      subscriptionStatus := d.subscriptionStatus,
      createdAt := if d.createdAt.Some? then d.createdAt.value else now,
      updatedAt := d.updatedAt)
  }

  /** `{ ...prev, ...updates }`: the keys present in `updates` replace the profile's values. */
  function ApplyUpdate(p: UserProfile, u: Doc): (q: UserProfile)
    ensures q.uid == p.uid
    ensures u == EmptyDoc ==> q == p
    // a key in the patch takes its value, a key it lacks keeps the profile's
    ensures q.isPremium == (if u.isPremium.Some? then u.isPremium.value else p.isPremium)
    ensures q.subscriptionTier == (if u.subscriptionTier.Some? then u.subscriptionTier.value else p.subscriptionTier)
    ensures q.readingsUsed == (if u.readingsUsed.Some? then u.readingsUsed.value else p.readingsUsed)
    ensures q.maxFreeReadings == (if u.maxFreeReadings.Some? then u.maxFreeReadings.value else p.maxFreeReadings)
    ensures q.createdAt == (if u.createdAt.Some? then u.createdAt.value else p.createdAt)
    ensures q.email == (if u.email.Some? then u.email else p.email)
    ensures q.displayName == (if u.displayName.Some? then u.displayName else p.displayName)
    ensures q.stripeCustomerId == (if u.stripeCustomerId.Some? then u.stripeCustomerId else p.stripeCustomerId)
    ensures q.subscriptionId == (if u.subscriptionId.Some? then u.subscriptionId else p.subscriptionId)
    ensures q.subscriptionStatus == (if u.subscriptionStatus.Some? then u.subscriptionStatus else p.subscriptionStatus)
    ensures q.updatedAt == (if u.updatedAt.Some? then u.updatedAt else p.updatedAt)
  {
    UserProfile(
      uid := p.uid,
      email := Pick(u.email, p.email),
      displayName := Pick(u.displayName, p.displayName),
      isPremium := u.isPremium.GetOr(p.isPremium),
      subscriptionTier := u.subscriptionTier.GetOr(p.subscriptionTier),
      readingsUsed := u.readingsUsed.GetOr(p.readingsUsed),
      maxFreeReadings := u.maxFreeReadings.GetOr(p.maxFreeReadings),
      stripeCustomerId := Pick(u.stripeCustomerId, p.stripeCustomerId),
      subscriptionId := Pick(u.subscriptionId, p.subscriptionId),
      subscriptionStatus := Pick(u.subscriptionStatus, p.subscriptionStatus),
      createdAt := u.createdAt.GetOr(p.createdAt),
      updatedAt := Pick(u.updatedAt, p.updatedAt))
  }

  /** The freshly signed-up account loads as a free account with no reading used and one allowed. */
  lemma SignUpLoadsAsFreeAccount(uid: string, email: Option<string>, displayName: Option<string>, created: int, now: int)
    ensures var p := ProfileFromDoc(uid, NewUserDoc(email, displayName, created), now);
      && !p.isPremium && p.subscriptionTier == "free"
      && p.readingsUsed == 0 && p.maxFreeReadings == 1
      && p.createdAt == created && p.email == email
  {
  }

  /** A patch holds no falsy value that loading would replace by a default. */
  predicate NoFalsyCounters(u: Doc) {
    && (u.subscriptionTier.Some? ==> u.subscriptionTier.value != "")
    && (u.maxFreeReadings.Some? ==> u.maxFreeReadings.value != 0)
  }

  /**
   * After an update the in-memory profile is what reloading the merged document gives,
   * as long as the patch writes no empty tier and no zero allowance.
   */
  lemma ReloadAfterUpdateAgrees(uid: string, d: Doc, u: Doc, now: int)
    requires NoFalsyCounters(u)
    ensures ProfileFromDoc(uid, Merge(d, u), now) == ApplyUpdate(ProfileFromDoc(uid, d, now), u)
  {
  }

  /** The auth context: the signed-in user, the loaded profile and the loading flag. */
  class AuthProvider {
    const db: Database
    var user: Option<AuthUser>
    var userProfile: Option<UserProfile>
    var loading: bool

    constructor (db: Database)
      ensures this.db == db
      ensures user.None? && userProfile.None? && loading
    {
      this.db := db;
      user := None;
      userProfile := None;
      loading := true;
    }

    /**
     * `loadUserProfile`: an existing document replaces the profile; a missing document,
     * or a read that fails (`readOk` false), leaves it as it was.
     */
    method LoadUserProfile(uid: string, readOk: bool, now: int)
      modifies this`userProfile
      ensures userProfile == if readOk && uid in db.users then Some(ProfileFromDoc(uid, db.users[uid], now))
                             else old(userProfile)
    {
      if readOk && uid in db.users {
        userProfile := Some(ProfileFromDoc(uid, db.users[uid], now));
      }
    }

    /** The `onAuthStateChanged` callback: sign-in loads the profile, sign-out clears both. */
    method OnAuthStateChanged(signedIn: Option<AuthUser>, readOk: bool, now: int)
      modifies this`user, this`userProfile, this`loading
      ensures user == signedIn && !loading
      ensures signedIn.None? ==> userProfile.None?
      ensures signedIn.Some? ==>
                userProfile == if readOk && signedIn.value.uid in db.users
                               then Some(ProfileFromDoc(signedIn.value.uid, db.users[signedIn.value.uid], now))
                               else old(userProfile)
    {
      if signedIn.Some? {
        user := signedIn;
        LoadUserProfile(signedIn.value.uid, readOk, now);
      } else {
        user := None;
        userProfile := None;
      }
      loading := false;
    }

    /**
     * `signUp`: once the account is created (`createOk`), the profile document is written
     * whole (`setDoc` without merge). Returns false where the source rethrows.
     */
    method SignUp(newUser: AuthUser, displayName: Option<string>, createOk: bool, writeOk: bool, now: int)
      returns (ok: bool)
      modifies db`users
      ensures ok == (createOk && writeOk)
      ensures db.users == if ok then old(db.users)[newUser.uid := NewUserDoc(newUser.email, displayName, now)]
                          else old(db.users)
    {
      if !createOk || !writeOk {
        return false;
      }
      db.users := db.users[newUser.uid := NewUserDoc(newUser.email, displayName, now)];
      ok := true;
    }

    /**
     * `updateUserProfile`: with nobody signed in nothing happens; otherwise the patch is
     * merged into the stored document (created if missing) and into the in-memory profile,
     * which stays null if it was null. A failed write (`writeOk` false) changes nothing and
     * returns false where the source rethrows.
     */
    method UpdateUserProfile(updates: Doc, writeOk: bool) returns (ok: bool)
      modifies this`userProfile, db`users
      ensures ok == (user.None? || writeOk)
      ensures user.None? || !writeOk ==> db.users == old(db.users) && userProfile == old(userProfile)
      ensures user.Some? && writeOk ==>
                && db.users == old(db.users)[user.value.uid := Merge(DocOrEmpty(old(db.users), user.value.uid), updates)]
                && userProfile == if old(userProfile).Some? then Some(ApplyUpdate(old(userProfile).value, updates)) else None
    {
      if user.None? {
        return true;
      }
      if !writeOk {
        return false;
      }
      var uid := user.value.uid;
      db.users := db.users[uid := Merge(DocOrEmpty(db.users, uid), updates)];
      if userProfile.Some? {
        userProfile := Some(ApplyUpdate(userProfile.value, updates));
      }
      ok := true;
    }
  }
}
