/**
 * The free-reading quota of `src/app/reading/page.tsx`: a non-premium user may start an
 * analysis only while `readingsUsed < maxFreeReadings` (defaults 0 and 1), a saved
 * reading by a non-premium user bumps the stored counter by one through
 * `updateUserProfile`, and failures consume nothing. The model call, the `readings`
 * write and the counter write are abstract outcomes (parameters).
 */
module ReadingPage {
  import opened Common
  import opened Firestore
  import opened PalmAnalysis
  import opened AuthContext
  import PalmReadingView

  const LimitReachedMessage: string :=
    "You have used all your free readings. Please upgrade to premium for unlimited readings."
  const ReadingFailedMessage: string := "Failed to analyze your palm. Please try again."

  /** `userProfile?.readingsUsed || 0`. */
  function ReadingsUsed(p: Option<UserProfile>): (used: int)
    // a loaded profile's count is used as is (a `0` gives the default `0` anyway)
    ensures p.Some? ==> used == p.value.readingsUsed
    ensures p.None? ==> used == 0
  {
    if p.Some? then OrInt(Some(p.value.readingsUsed), 0) else 0
  }

  /** `userProfile?.maxFreeReadings || 1`. */
  function MaxFreeReadings(p: Option<UserProfile>): (limit: int)
    ensures limit != 0
    ensures p.Some? && p.value.maxFreeReadings != 0 ==> limit == p.value.maxFreeReadings
    ensures p.None? || p.value.maxFreeReadings == 0 ==> limit == 1
  {
    if p.Some? then OrInt(Some(p.value.maxFreeReadings), 1) else 1
  }

  /** The refusal test at the top of `handleImageUpload`. */
  function QuotaExhausted(p: Option<UserProfile>): (exhausted: bool)
    // only a loaded, non-premium profile can be refused
    ensures exhausted ==> p.Some? && !p.value.isPremium
    ensures p.Some? && !p.value.isPremium ==> (exhausted <==> p.value.readingsUsed >= MaxFreeReadings(p))
  {
    !IsPremium(p) && ReadingsUsed(p) >= MaxFreeReadings(p)
  }

  /** `canUseFreeReading`, which decides whether the upload control is shown. */
  function CanUseFreeReading(p: Option<UserProfile>): (can: bool)
    ensures can <==> !QuotaExhausted(p)
    ensures IsPremium(p) ==> can
    ensures p.None? ==> can
  {
    IsPremium(p) || ReadingsUsed(p) < MaxFreeReadings(p)
  }

  /** The patch `{ readingsUsed: (userProfile?.readingsUsed || 0) + 1 }`. */
  function CounterPatch(p: Option<UserProfile>): (u: Doc)
    ensures u.readingsUsed == Some(ReadingsUsed(p) + 1)
    ensures u.(readingsUsed := None) == EmptyDoc
    ensures NoFalsyCounters(u)
  {
    EmptyDoc.(readingsUsed := Some(ReadingsUsed(p) + 1))
  }

  /** `isPreview={!userProfile?.isPremium}`. */
  function IsPreview(p: Option<UserProfile>): (preview: Option<bool>)
    // the page always passes the prop, true for a missing or non-premium profile
    ensures preview.Some?
    ensures preview.value <==> p.None? || !p.value.isPremium
  {
    Some(!IsPremium(p))
  }

  /** The counter patch raises the in-memory count by exactly one. */
  lemma CounterPatchAddsOne(p: UserProfile)
    ensures ApplyUpdate(p, CounterPatch(Some(p))).readingsUsed == p.readingsUsed + 1
    ensures ApplyUpdate(p, CounterPatch(Some(p))).(readingsUsed := p.readingsUsed) == p
  {
  }

  /**
   * A new account may read once: its loaded profile passes the quota, and after the
   * counter patch of one reading it no longer does.
   */
  lemma OneFreeReadingPerNewAccount(uid: string, email: Option<string>, displayName: Option<string>, created: int, now: int)
    ensures var p := ProfileFromDoc(uid, NewUserDoc(email, displayName, created), now);
      && CanUseFreeReading(Some(p))
      && !CanUseFreeReading(Some(ApplyUpdate(p, CounterPatch(Some(p)))))
  {
    SignUpLoadsAsFreeAccount(uid, email, displayName, created, now);
  }

  /** On the reading page the detailed tabs are obscured exactly for non-premium users. */
  lemma PreviewObscuresExactlyNonPremium(p: Option<UserProfile>)
    ensures PalmReadingView.ShouldBlurContent(IsPreview(p), p) <==> !IsPremium(p)
  {
  }

  class ReadingPage {
    const auth: AuthProvider
    var uploadedImageUrl: Option<string>
    var reading: Option<PalmReadingResult>
    var isAnalyzing: bool
    var error: Option<string>

    constructor (auth: AuthProvider)
      ensures this.auth == auth
      ensures uploadedImageUrl.None? && reading.None? && !isAnalyzing && error.None?
    {
      this.auth := auth;
      uploadedImageUrl := None;
      reading := None;
      isAnalyzing := false;
      error := None;
    }

    /**
     * `handleImageUpload(imageUrl)`. `analysis` is what `analyzePalmImage(imageUrl)`
     * returns or throws (see `PalmAnalysis.AnalyzePalmImage`), `now` the clock; `saveOk`
     * and `countOk` are the outcomes of the `readings` write and of the counter update.
     * With nobody signed in the record's `userId` is `undefined`, which Firestore refuses,
     * so that write fails like one with `saveOk` false.
     */
    method HandleImageUpload(imageUrl: string, analysis: Result<PalmReadingResult, string>, now: int,
                             saveOk: bool, countOk: bool)
      modifies this, auth`userProfile, auth.db`users, auth.db`readings
      ensures uploadedImageUrl == Some(imageUrl)
      // refused: the error is set and nothing else happens
      ensures QuotaExhausted(old(auth.userProfile)) ==>
                && error == Some(LimitReachedMessage)
                && reading == old(reading) && isAnalyzing == old(isAnalyzing)
                && auth.userProfile == old(auth.userProfile)
                && auth.db.users == old(auth.db.users) && auth.db.readings == old(auth.db.readings)
      // every path that starts an analysis ends with it stopped
      ensures !QuotaExhausted(old(auth.userProfile)) ==> !isAnalyzing
      // the model gave no usable text: error, nothing stored
      ensures !QuotaExhausted(old(auth.userProfile)) && analysis.Failure? ==>
                && error == Some(ReadingFailedMessage) && reading == old(reading)
                && auth.userProfile == old(auth.userProfile)
                && auth.db.users == old(auth.db.users) && auth.db.readings == old(auth.db.readings)
      // a reading was produced: it is shown whatever happens next
      ensures !QuotaExhausted(old(auth.userProfile)) && analysis.Success? ==>
                reading == Some(analysis.value)
      // ... the save failed, or had no user id to write: error, nothing stored
      ensures !QuotaExhausted(old(auth.userProfile)) && analysis.Success? && (!saveOk || old(auth.user).None?) ==>
                && error == Some(ReadingFailedMessage)
                && auth.userProfile == old(auth.userProfile)
                && auth.db.users == old(auth.db.users) && auth.db.readings == old(auth.db.readings)
      // ... the save succeeded: one record appended
      ensures !QuotaExhausted(old(auth.userProfile)) && analysis.Success? && saveOk && old(auth.user).Some? ==>
                auth.db.readings == old(auth.db.readings) + [ReadingRecord(
                  old(auth.user).value.uid, imageUrl, analysis.value, now, IsPremium(old(auth.userProfile)))]
      // ... premium: the counter is not touched
      ensures !QuotaExhausted(old(auth.userProfile)) && analysis.Success? && saveOk && old(auth.user).Some?
              && IsPremium(old(auth.userProfile)) ==>
                && error.None?
                && auth.userProfile == old(auth.userProfile) && auth.db.users == old(auth.db.users)
      // ... non-premium and signed in: the counter goes up by one, or the update fails and nothing changes
      ensures !QuotaExhausted(old(auth.userProfile)) && analysis.Success? && saveOk
              && !IsPremium(old(auth.userProfile)) && old(auth.user).Some? ==>
                if countOk then
                  && error.None?
                  && auth.db.users == old(auth.db.users)[old(auth.user).value.uid :=
                       Merge(DocOrEmpty(old(auth.db.users), old(auth.user).value.uid), CounterPatch(old(auth.userProfile)))]
                  && auth.userProfile == if old(auth.userProfile).Some?
                                         then Some(ApplyUpdate(old(auth.userProfile).value, CounterPatch(old(auth.userProfile))))
                                         else None
                else
                  && error == Some(ReadingFailedMessage)
                  && auth.userProfile == old(auth.userProfile) && auth.db.users == old(auth.db.users)
    {
      uploadedImageUrl := Some(imageUrl);
      error := None;
      var profile := auth.userProfile;
      if !CanUseFreeReading(profile) {
        error := Some(LimitReachedMessage);
        return;
      }
      isAnalyzing := true;
      if analysis.Failure? {
        error := Some(ReadingFailedMessage);
        isAnalyzing := false;
        return;
      }
      reading := Some(analysis.value);
      if !saveOk || auth.user.None? {
        error := Some(ReadingFailedMessage);
        isAnalyzing := false;
        return;
      }
      auth.db.readings := auth.db.readings + [ReadingRecord(auth.user.value.uid, imageUrl, analysis.value, now, IsPremium(profile))];
      if !IsPremium(profile) {
        var ok := auth.UpdateUserProfile(CounterPatch(profile), countOk);
        if !ok {
          error := Some(ReadingFailedMessage);
        }
      }
      isAnalyzing := false;
    }

    /** The "Try Again" button: clears the error and the uploaded image. */
    method TryAgain()
      modifies this`error, this`uploadedImageUrl
      ensures error.None? && uploadedImageUrl.None?
    {
      error := None;
      uploadedImageUrl := None;
    }

    /** The "Get Another Reading" button: clears the reading, the uploaded image and the error. */
    method GetAnotherReading()
      modifies this`reading, this`uploadedImageUrl, this`error
      ensures reading.None? && uploadedImageUrl.None? && error.None?
    {
      reading := None;
      uploadedImageUrl := None;
      error := None;
    }
  }
}
