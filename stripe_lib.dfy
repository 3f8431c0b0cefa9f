/**
 * `src/lib/stripe.ts`: the constant plan catalogue (prices in cents), the plan check of
 * `createCheckoutSession` and the parameters it hands to Stripe, and the event dispatch
 * of `handleWebhook`. The Stripe SDK calls are abstract: the checkout session is modelled
 * by the request it is created from, and `constructEvent` by whether it throws.
 */
module StripeLib {
  import opened Common

  datatype PricingPlan = PricingPlan(
    id: string,
    name: string,
    priceCents: nat,
    features: seq<string>,
    stripeProductId: string,
    stripePriceId: string)

  const InvalidPlanMessage: string := "Invalid plan selected"

  const PricingPlans: seq<PricingPlan> := [
    PricingPlan("free", "Spiritual Seeker", 0,
      ["1 Free Palm Reading", "Basic Personality Insights", "Lucky Numbers & Colors", "General Spiritual Guidance"],
      "", ""),
    PricingPlan("premium", "Mystic Premium", 999,
      ["Unlimited Palm Readings", "Detailed Line Analysis", "Comprehensive Mounts Reading",
       "Advanced Spiritual Guidance", "Compatibility Readings", "Monthly Spiritual Reports",
       "Priority Support", "Reading History & Trends"],
      "prod_premium_palm_reading", "price_premium_monthly"),
    PricingPlan("deluxe", "Cosmic Master", 1999,
      ["Everything in Premium", "AI-Powered Life Predictions", "Career & Relationship Deep Dive",
       "Chakra Alignment Analysis", "Astrological Cross-Reference", "Personal Spiritual Coach",
       "Exclusive Meditation Content", "Early Access to New Features"],
      "prod_deluxe_palm_reading", "price_deluxe_monthly")
  ]

  /** The catalogue: three plans with distinct ids; the free one costs nothing and has no Stripe ids. */
  lemma CatalogueShape()
    ensures |PricingPlans| == 3
    ensures PricingPlans[0].id == "free" && PricingPlans[1].id == "premium" && PricingPlans[2].id == "deluxe"
    ensures forall i, j :: 0 <= i < j < |PricingPlans| ==> PricingPlans[i].id != PricingPlans[j].id
    ensures PricingPlans[0].priceCents == 0 && PricingPlans[0].stripePriceId == "" && PricingPlans[0].stripeProductId == ""
    ensures forall i :: 1 <= i < |PricingPlans| ==> PricingPlans[i].priceCents > 0 && PricingPlans[i].stripePriceId != ""
  {
  }

  /** `plans.find(p => p.id === planId)`: the first plan with that id, if any. */
  function FindPlan(plans: seq<PricingPlan>, planId: string): (r: Option<PricingPlan>)
    ensures r.None? <==> forall i :: 0 <= i < |plans| ==> plans[i].id != planId
    ensures r.Some? ==> exists i :: 0 <= i < |plans| && plans[i] == r.value
                                    && r.value.id == planId
                                    && forall j :: 0 <= j < i ==> plans[j].id != planId
  {
    if |plans| == 0 then None
    else if plans[0].id == planId then Some(plans[0])
    else
      var r := FindPlan(plans[1..], planId);
      assert forall i :: 1 <= i < |plans| ==> plans[i] == plans[1..][i - 1];
      r
  }

  datatype LineItem = LineItem(price: string, quantity: nat)

  /** The request `createCheckoutSession` sends to `stripe.checkout.sessions.create`. */
  datatype CheckoutRequest = CheckoutRequest(
    paymentMethodTypes: seq<string>,
    lineItems: seq<LineItem>,
    mode: string,
    successUrl: string,
    cancelUrl: string,
    customerEmail: string,
    metadata: map<string, string>)

  /**
   * `createCheckoutSession(userId, planId, email)`: an unknown plan and the free plan are
   * rejected; a paid plan gives a one-item subscription for its price, with the user and
   * the plan in the metadata. `appUrl` is `NEXT_PUBLIC_APP_URL`.
   */
  function CreateCheckoutSession(userId: string, planId: string, email: string, appUrl: string)
    : (r: Result<CheckoutRequest, string>)
    ensures r.Failure? <==> planId != "premium" && planId != "deluxe"
    ensures r.Failure? ==> r.error == InvalidPlanMessage
    ensures r.Success? ==>
              && FindPlan(PricingPlans, planId).Some?
              && r.value.lineItems == [LineItem(FindPlan(PricingPlans, planId).value.stripePriceId, 1)]
              && FindPlan(PricingPlans, planId).value.stripePriceId != ""
              && r.value.mode == "subscription"
              && r.value.customerEmail == email
              && r.value.metadata == map["userId" := userId, "planId" := planId]
  {
    var plan := FindPlan(PricingPlans, planId);
    assert PricingPlans[1].id == "premium" && PricingPlans[2].id == "deluxe";
    if plan.None? || plan.value.id == "free" then Failure(InvalidPlanMessage)
    else
      Success(CheckoutRequest(
        ["card"],
        [LineItem(plan.value.stripePriceId, 1)],
        "subscription",
        appUrl + "/dashboard?success=true",
        appUrl + "/dashboard?canceled=true",
        email,
        map["userId" := userId, "planId" := planId]))
  }

  /** What `handleWebhook` does with a verified event. */
  datatype Handler = SuccessfulPayment | CanceledSubscription | LogOnly

  function DispatchEvent(eventType: string): (h: Handler)
    ensures h == SuccessfulPayment <==> eventType == "checkout.session.completed"
    ensures h == CanceledSubscription <==> eventType == "customer.subscription.deleted"
  {
    if eventType == "checkout.session.completed" then SuccessfulPayment
    else if eventType == "customer.subscription.deleted" then CanceledSubscription
    else LogOnly
  }

  /**
   * `handleWebhook(signature, body)`: `event` is what `constructEvent` yields for them,
   * None when it throws (bad signature), which `handleWebhook` propagates.
   */
  function HandleWebhook(event: Option<string>): (r: Option<Handler>)
    ensures r.None? <==> event.None?
    ensures r.Some? ==> r.value == DispatchEvent(event.value)
  {
    if event.None? then None else Some(DispatchEvent(event.value))
  }
}
