/**
 * The Stripe webhook endpoint `POST` of `src/app/api/stripe-webhook/route.ts`, as a
 * function from the `users` collection and the request to the response and the new
 * collection. Signature verification (`stripe.webhooks.constructEvent`) is an abstract
 * function from body and signature to the event, None when it throws.
 */
module StripeWebhook {
  import opened Common
  import opened Firestore
  import StripeLib

  /** The fields of `event.data.object` the handler reads for a completed checkout. */
  datatype Session = Session(
    clientReferenceId: Option<string>,
    metadataUserId: Option<string>,
    customer: string,
    subscription: string)

  datatype Event = Event(eventType: string, session: Session)

  datatype ResponseBody = Received | ErrorBody(message: string)

  datatype Response = Response(status: int, body: ResponseBody)

  const NoSignatureMessage: string := "No Stripe signature found"
  const BadSignatureMessage: string := "Webhook signature verification failed"
  const ProcessingFailedMessage: string := "Webhook processing failed"

  /** JavaScript truthiness of an optional string: present and not `''`. */
  predicate Truthy(s: Option<string>) {
    s.Some? && s.value != ""
  }

  /** `session.client_reference_id || session.metadata?.userId`, kept only when truthy. */
  function ResolveUserId(session: Session): (uid: Option<string>)
    ensures uid.Some? ==> uid.value != ""
    ensures Truthy(session.clientReferenceId) ==> uid == session.clientReferenceId
    ensures !Truthy(session.clientReferenceId) ==> uid == (if Truthy(session.metadataUserId) then session.metadataUserId else None)
  {
    if Truthy(session.clientReferenceId) then session.clientReferenceId
    else if Truthy(session.metadataUserId) then session.metadataUserId
    else None
  }

  /** The fields `updateDoc` writes for an upgraded user; `now` is `new Date().toISOString()`. */
  function PremiumPatch(session: Session, now: string): (patch: Doc)
    ensures patch.isPremium == Some(true) && patch.subscriptionStatus == Some("active")
    ensures patch.stripeCustomerId == Some(session.customer) && patch.subscriptionId == Some(session.subscription)
    ensures patch.readingsUsed.None? && patch.maxFreeReadings.None? && patch.subscriptionTier.None?
  {
    EmptyDoc.(isPremium := Some(true), stripeCustomerId := Some(session.customer),
              subscriptionId := Some(session.subscription), subscriptionStatus := Some("active"),
              updatedAt := Some(now))
  }

  /**
   * `POST(request)`. `writeOk` is the outcome of the `updateDoc` call, which also fails
   * when the user has no document; a failure there is answered with 500.
   */
  function Post(users: map<string, Doc>, body: string, signature: Option<string>,
                constructEvent: (string, string) -> Option<Event>, writeOk: bool, now: string)
    : (r: (Response, map<string, Doc>))
    // a missing signature header, or one that fails verification: 400, nothing written
    ensures !Truthy(signature) ==> r == (Response(400, ErrorBody(NoSignatureMessage)), users)
    ensures Truthy(signature) && constructEvent(body, signature.value).None? ==>
              r == (Response(400, ErrorBody(BadSignatureMessage)), users)
    // the only status besides 400 are 200 (received) and 500
    ensures r.0.status == 200 <==> r.0.body == Received
    ensures r.0.status in {200, 400, 500}
    // a verified event that is not a completed checkout of a resolvable user is only logged
    ensures Truthy(signature) && constructEvent(body, signature.value).Some? &&
            !(constructEvent(body, signature.value).value.eventType == "checkout.session.completed" &&
              ResolveUserId(constructEvent(body, signature.value).value.session).Some?) ==>
              r == (Response(200, Received), users)
    // a failed `updateDoc` (or no document to update) answers 500 and writes nothing
    ensures Truthy(signature) && constructEvent(body, signature.value).Some? &&
            constructEvent(body, signature.value).value.eventType == "checkout.session.completed" &&
            ResolveUserId(constructEvent(body, signature.value).value.session).Some? &&
            (!writeOk || ResolveUserId(constructEvent(body, signature.value).value.session).value !in users) ==>
              r == (Response(500, ErrorBody(ProcessingFailedMessage)), users)
    // only a completed checkout with a resolvable user writes, and only to that user
    ensures r.1 != users ==>
              && Truthy(signature) && constructEvent(body, signature.value).Some?
              && constructEvent(body, signature.value).value.eventType == "checkout.session.completed"
              && ResolveUserId(constructEvent(body, signature.value).value.session).Some?
    // a verified completed checkout for a stored user, written successfully: 200, and that
    // user's document is merged with exactly the six keys of the premium patch
    ensures Truthy(signature) && constructEvent(body, signature.value).Some? &&
            constructEvent(body, signature.value).value.eventType == "checkout.session.completed" &&
            ResolveUserId(constructEvent(body, signature.value).value.session).Some? &&
            writeOk && ResolveUserId(constructEvent(body, signature.value).value.session).value in users ==>
              var uid := ResolveUserId(constructEvent(body, signature.value).value.session).value;
              r == (Response(200, Received),
                    users[uid := Merge(users[uid], PremiumPatch(constructEvent(body, signature.value).value.session, now))])
    ensures r.1.Keys == users.Keys
    ensures forall uid :: uid in users && uid != UpgradedUser(signature, body, constructEvent) ==> r.1[uid] == users[uid]
  {
    if !Truthy(signature) then (Response(400, ErrorBody(NoSignatureMessage)), users)
    else
      match constructEvent(body, signature.value)
      case None => (Response(400, ErrorBody(BadSignatureMessage)), users)
      case Some(event) =>
        if event.eventType == "checkout.session.completed" && ResolveUserId(event.session).Some? then
          var uid := ResolveUserId(event.session).value;
          if writeOk && uid in users then
            (Response(200, Received), users[uid := Merge(users[uid], PremiumPatch(event.session, now))])
          else
            (Response(500, ErrorBody(ProcessingFailedMessage)), users)
        else
          // the subscription and invoice events, and any other type, are only logged
          (Response(200, Received), users)
  }

  /**
   * The handler run against the store itself: the single `updateDoc` of a completed
   * checkout changes that user's document in place, and the response and the new store
   * are those of `Post`.
   */
  method HandleRequest(db: Database, body: string, signature: Option<string>,
                       constructEvent: (string, string) -> Option<Event>, writeOk: bool, now: string)
    returns (response: Response)
    modifies db`users
    ensures (response, db.users) == Post(old(db.users), body, signature, constructEvent, writeOk, now)
  {
    if !Truthy(signature) {
      return Response(400, ErrorBody(NoSignatureMessage));
    }
    var event := constructEvent(body, signature.value);
    if event.None? {
      return Response(400, ErrorBody(BadSignatureMessage));
    }
    var e := event.value;
    if e.eventType == "checkout.session.completed" {
      var userId := ResolveUserId(e.session);
      if userId.Some? {
        var uid := userId.value;
        if !writeOk || uid !in db.users {
          return Response(500, ErrorBody(ProcessingFailedMessage));
        }
        db.users := db.users[uid := Merge(db.users[uid], PremiumPatch(e.session, now))];
      }
    }
    response := Response(200, Received);
  }

  /**
   * The user a request would upgrade: the resolved user id of a verified completed checkout,
   * or `""` when there is none. `""` never names an upgraded user, because `ResolveUserId`
   * keeps only truthy (non-empty) ids; so excluding it from `Post`'s frame excludes no one
   * when nothing is upgraded.
   */
  function UpgradedUser(signature: Option<string>, body: string, constructEvent: (string, string) -> Option<Event>): string {
    if Truthy(signature) && constructEvent(body, signature.value).Some? then
      var event := constructEvent(body, signature.value).value;
      if event.eventType == "checkout.session.completed" && ResolveUserId(event.session).Some?
      then ResolveUserId(event.session).value else ""
    else ""
  }

  /** A verified completed checkout for a stored user marks exactly that user premium and active. */
  lemma CheckoutUpgradesUser(users: map<string, Doc>, body: string, sig: string,
                             constructEvent: (string, string) -> Option<Event>, now: string, uid: string)
    requires sig != ""
    requires constructEvent(body, sig).Some? && constructEvent(body, sig).value.eventType == "checkout.session.completed"
    requires ResolveUserId(constructEvent(body, sig).value.session) == Some(uid) && uid in users
    ensures var (response, users') := Post(users, body, Some(sig), constructEvent, true, now);
      && response == Response(200, Received)
      && users'[uid].isPremium == Some(true) && users'[uid].subscriptionStatus == Some("active")
      && users'[uid].stripeCustomerId == Some(constructEvent(body, sig).value.session.customer)
      && users'[uid].subscriptionId == Some(constructEvent(body, sig).value.session.subscription)
      && users'[uid].updatedAt == Some(now)
      && users'[uid].readingsUsed == users[uid].readingsUsed
      && users'[uid].maxFreeReadings == users[uid].maxFreeReadings
      // `updateDoc` writes only the six keys of the patch: every other key is kept
      && users'[uid].subscriptionTier == users[uid].subscriptionTier
      && users'[uid].email == users[uid].email && users'[uid].displayName == users[uid].displayName
      && users'[uid].createdAt == users[uid].createdAt
      && users' == users[uid := Merge(users[uid], PremiumPatch(constructEvent(body, sig).value.session, now))]
  {
  }

  /** Cancelling a subscription does not downgrade anyone: the store is returned as it was. */
  lemma DeletionDoesNotDowngrade(users: map<string, Doc>, body: string, sig: string,
                                 constructEvent: (string, string) -> Option<Event>, writeOk: bool, now: string)
    requires sig != "" && constructEvent(body, sig).Some?
    requires constructEvent(body, sig).value.eventType == "customer.subscription.deleted"
    ensures Post(users, body, Some(sig), constructEvent, writeOk, now) == (Response(200, Received), users)
  {
  }

  /** The session the checkout route creates: `client_reference_id` and `metadata.userId` are both the user id. */
  function CheckoutRouteSession(userId: string, customer: string, subscription: string): (s: Session)
    ensures s.clientReferenceId == Some(userId) && s.metadataUserId == Some(userId)
    ensures s.customer == customer && s.subscription == subscription
  {
    Session(Some(userId), Some(userId), customer, subscription)
  }

  /** The user id the checkout route writes comes back from the webhook unchanged. */
  lemma UserIdRoundTrip(userId: string, customer: string, subscription: string)
    requires userId != ""
    ensures ResolveUserId(CheckoutRouteSession(userId, customer, subscription)) == Some(userId)
  {
  }

  /**
   * A session created by `createCheckoutSession` of the library carries the user only in
   * its metadata; the webhook still resolves it to that user.
   */
  lemma LibraryCheckoutResolvesUser(userId: string, planId: string, email: string, appUrl: string,
                                    customer: string, subscription: string)
    requires userId != ""
    requires StripeLib.CreateCheckoutSession(userId, planId, email, appUrl).Success?
    ensures var request := StripeLib.CreateCheckoutSession(userId, planId, email, appUrl).value;
      && "userId" in request.metadata
      && ResolveUserId(Session(None, Some(request.metadata["userId"]), customer, subscription)) == Some(userId)
  {
  }
}
