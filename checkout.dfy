/** The online ticket checkout route (`POST /checkout`): an ordered chain of
    guards over the request body and the fetched tier. The first failing guard
    decides the response; only when every guard passes is a payment session
    requested from the provider. The tier table is passed in as a map from tier
    id to row; the provider's answer is an input of `Post`. */
module Checkout {
  import opened Common
  import opened Validation

  /** The JSON body: `{event_id, ticket_tier_id, quantity}`; `None` is an
      absent or null id. */
  datatype Request = Request(eventId: Option<string>, tierId: Option<string>, quantity: NumberField)

  /** What the route asks the payment provider to create. */
  datatype SessionRequest = SessionRequest(
    priceId: string,
    eventId: string,
    tierId: string,
    quantity: int,
    successUrl: string,
    cancelUrl: string)

  /** The route's decision before it talks to the provider. */
  datatype Decision = Reject(status: int, error: string) | CreateSession(session: SessionRequest)

  datatype Body = Url(url: string) | Error(error: string)
  datatype Response = Response(status: int, body: Body)

  const DefaultSiteUrl := "http://localhost:4321"
  const DatabaseError := "Database not configured"
  const MissingIdsError := "Missing event_id or ticket_tier_id"
  const TierNotFoundError := "Ticket tier not found"
  const SessionFailedError := "Failed to create checkout session"

  /** `quantity = 1` when the field is absent; `null` compares as 0. */
  function Quantity(req: Request): int {
    Numeric(req.quantity, 1)
  }

  /** `PUBLIC_SITE_URL` (or the local default) without one trailing '/'. */
  function SiteBase(siteUrl: Option<string>): string {
    StripTrailingSlash(OrElse(siteUrl, DefaultSiteUrl))
  }

  function SuccessUrl(siteUrl: Option<string>): string {
    SiteBase(siteUrl) + "/success?session_id={CHECKOUT_SESSION_ID}"
  }

  /** Every tier guard of checkout.ts passes. */
  predicate TierAccepted(tier: Tier, quantity: int) {
    && tier.isActive
    && tier.tierType != Door
    && (tier.maxStock.Some? ==> tier.maxStock.value - tier.soldCount >= quantity)
    && Present(tier.stripePriceId)
  }

  /** The guard chain of checkout.ts. */
  function Decide(dbConfigured: bool, siteUrl: Option<string>, req: Request, tiers: map<string, Tier>): (d: Decision)
    ensures !dbConfigured ==> d == Reject(500, DatabaseError)
    ensures dbConfigured && (!Present(req.eventId) || !Present(req.tierId)) ==>
              d == Reject(400, MissingIdsError)
    ensures dbConfigured && Present(req.eventId) && Present(req.tierId) && !(1 <= Quantity(req) <= MaxQuantity) ==>
              d == Reject(400, QuantityError)
    ensures d.Reject? ==> d.status in {400, 404, 500}
    ensures d.Reject? && d.status == 404 ==> d.error == TierNotFoundError && req.tierId.value !in tiers
    ensures dbConfigured && Present(req.eventId) && Present(req.tierId) && 1 <= Quantity(req) <= MaxQuantity
            && req.tierId.value !in tiers ==>
              d == Reject(404, TierNotFoundError)
    ensures d.CreateSession? <==>
              && dbConfigured && Present(req.eventId) && Present(req.tierId)
              && 1 <= Quantity(req) <= MaxQuantity
              && req.tierId.value in tiers && TierAccepted(tiers[req.tierId.value], Quantity(req))
    ensures d.CreateSession? ==>
              var tier := tiers[req.tierId.value];
              d.session == SessionRequest(tier.stripePriceId.value, req.eventId.value, req.tierId.value,
                                          Quantity(req), SuccessUrl(siteUrl),
                                          SiteBase(siteUrl) + "/events/" + req.eventId.value)
  {
    if !dbConfigured then Reject(500, DatabaseError)
    else if !Present(req.eventId) || !Present(req.tierId) then Reject(400, MissingIdsError)
    else
      var eventId, tierId, quantity := req.eventId.value, req.tierId.value, Quantity(req);
      if quantity < 1 || quantity > 10 then Reject(400, QuantityError)
      else if tierId !in tiers then Reject(404, TierNotFoundError)
      else
        var tier := tiers[tierId];
        if !tier.isActive then Reject(400, InactiveError)
        else if tier.tierType == Door then Reject(400, DoorOnlyError)
        else if tier.maxStock.Some? && tier.maxStock.value - tier.soldCount < quantity then
          var available := tier.maxStock.value - tier.soldCount;
          Reject(400, if available <= 0 then SoldOutError else OnlyRemaining(available))
        else if !Present(tier.stripePriceId) then Reject(400, NotConfiguredError)
        else
          var base := SiteBase(siteUrl);
          CreateSession(SessionRequest(tier.stripePriceId.value, eventId, tierId, quantity,
                                       SuccessUrl(siteUrl), base + "/events/" + eventId))
  }

  /** The whole route: the decision, then the provider's answer (`Some(url)`
      for a created session, `None` when the call throws). */
  function Post(dbConfigured: bool, siteUrl: Option<string>, req: Request, tiers: map<string, Tier>,
                provider: Option<string>): (r: Response)
    ensures r.status == 200 <==> Decide(dbConfigured, siteUrl, req, tiers).CreateSession? && provider.Some?
    ensures r.status == 200 ==> r.body == Url(provider.value)
    ensures Decide(dbConfigured, siteUrl, req, tiers).Reject? ==>
              var d := Decide(dbConfigured, siteUrl, req, tiers);
              r == Response(d.status, Error(d.error))
    ensures Decide(dbConfigured, siteUrl, req, tiers).CreateSession? && provider.None? ==>
              r == Response(500, Error(SessionFailedError))
  {
    match Decide(dbConfigured, siteUrl, req, tiers)
    case Reject(status, error) => Response(status, Error(error))
    case CreateSession(_) =>
      if provider.Some? then Response(200, Url(provider.value)) else Response(500, Error(SessionFailedError))
  }

  /** Once the tier is found, the route's answer is exactly the first failing
      rule among the extracted validators, in the order active, channel, stock,
      price id; when none fails a session is requested. */
  lemma DecideFollowsValidators(siteUrl: Option<string>, req: Request, tiers: map<string, Tier>)
    requires Present(req.eventId) && Present(req.tierId)
    requires ValidateQuantity(Quantity(req)).Valid?
    requires req.tierId.value in tiers
    ensures var failure := FirstFailure(OnlineTierChecks(tiers[req.tierId.value], Quantity(req)));
            && (failure.Some? ==> Decide(true, siteUrl, req, tiers) == Reject(400, failure.value))
            && (failure.None? <==> Decide(true, siteUrl, req, tiers).CreateSession?)
  {
    var tier, q := tiers[req.tierId.value], Quantity(req);
    FirstFailureOfFour(ValidateTierActive(tier), ValidateTierType(tier), ValidateStock(tier, q),
                       ValidateStripeConfig(tier));
  }

  /** An inactive tier is refused with the "not available" message, whatever
      the later rules would say. */
  lemma InactiveTierRefusedFirst(siteUrl: Option<string>, req: Request, tiers: map<string, Tier>)
    requires Present(req.eventId) && Present(req.tierId) && 1 <= Quantity(req) <= MaxQuantity
    requires req.tierId.value in tiers && !tiers[req.tierId.value].isActive
    ensures Post(true, siteUrl, req, tiers, None) == Response(400, Error(InactiveError))
  {
  }

  /** The tier lookup is by tier id alone: a tier of another event is sold
      under the event id the request names. */
  lemma TierNotScopedToEvent()
    ensures var tier := Tier("t1", "other-event", Online, Some("price_1"), None, 0, true);
            var req := Request(Some("e1"), Some("t1"), Absent);
            var d := Decide(true, None, req, map["t1" := tier]);
            d.CreateSession? && d.session.eventId == "e1" && tier.eventId != "e1"
  {
  }

  /** A `null` quantity is not replaced by the default 1: it compares as 0
      and is refused by the range guard. */
  lemma NullQuantityRefused(siteUrl: Option<string>, eventId: string, tierId: string, tiers: map<string, Tier>)
    requires eventId != "" && tierId != ""
    ensures Decide(true, siteUrl, Request(Some(eventId), Some(tierId), Null), tiers) == Reject(400, QuantityError)
    ensures Decide(true, siteUrl, Request(Some(eventId), Some(tierId), Absent), tiers)
            == Decide(true, siteUrl, Request(Some(eventId), Some(tierId), Number(1)), tiers)
  {
  }
}
