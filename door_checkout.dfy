/** The door checkout route (`POST /door-checkout`): the guard chain of the
    online route, preceded by checks on the event (door-only mode, published)
    and with the tier looked up within the event. It never refuses a tier for
    its channel, and words the stock and price-id failures differently. */
module DoorCheckout {
  import opened Common
  import opened Validation
  import Checkout

  datatype EventStatus = Draft | Published | Archived

  /** The event row: the fields the route reads (`door_only_mode` null is false). */
  datatype Event = Event(id: string, doorOnlyMode: bool, status: EventStatus)

  /** The JSON body: `{event_id, tier_id, quantity}`; `None` is an absent or
      null id. */
  datatype Request = Request(eventId: Option<string>, tierId: Option<string>, quantity: NumberField)

  const MissingIdsError := "Missing event_id or tier_id"
  const EventNotFoundError := "Event not found"
  const DoorDisabledError := "Door checkout not enabled for this event"
  const EventUnavailableError := "Event is not available"
  const DoorSoldOutError := "Tickets are sold out"
  const DoorNotConfiguredError := "Ticket not configured for purchase"

  /** `quantity = 1` when the field is absent; `null` compares as 0. */
  function Quantity(req: Request): int {
    Numeric(req.quantity, 1)
  }

  /** The tier-row lookup `id = tier_id AND event_id = event_id`. */
  predicate TierOfEvent(tiers: map<string, Tier>, tierId: string, eventId: string) {
    tierId in tiers && tiers[tierId].eventId == eventId
  }

  /** The stock rule of the door path, with its own sold-out wording. */
  function DoorStock(tier: Tier, quantity: int): (r: Check)
    ensures tier.maxStock.None? ==> r.Valid?
    ensures tier.maxStock.Some? ==> (r.Valid? <==> Available(tier) >= quantity)
    ensures r.Invalid? && Available(tier) <= 0 ==> r.error == DoorSoldOutError
    ensures r.Invalid? && Available(tier) > 0 ==>
              Available(tier) < quantity && r.error == OnlyRemaining(Available(tier))
  {
    if tier.maxStock.Some? && tier.maxStock.value - tier.soldCount < quantity then
      var available := tier.maxStock.value - tier.soldCount;
      Invalid(if available <= 0 then DoorSoldOutError else OnlyRemaining(available))
    else Valid
  }

  /** The tier rules of the door path, in order: active, stock, price id. */
  function DoorTierChecks(tier: Tier, quantity: int): seq<Check> {
    [ValidateTierActive(tier), DoorStock(tier, quantity),
     if Present(tier.stripePriceId) then Valid else Invalid(DoorNotConfiguredError)]
  }

  /** Every tier guard of door-checkout.ts passes. */
  predicate DoorTierAccepted(tier: Tier, quantity: int) {
    && tier.isActive
    && (tier.maxStock.Some? ==> tier.maxStock.value - tier.soldCount >= quantity)
    && Present(tier.stripePriceId)
  }

  /** The guard chain of door-checkout.ts. */
  function Decide(dbConfigured: bool, siteUrl: Option<string>, req: Request,
                  events: map<string, Event>, tiers: map<string, Tier>): (d: Checkout.Decision)
    ensures !dbConfigured ==> d == Checkout.Reject(500, Checkout.DatabaseError)
    ensures dbConfigured && (!Present(req.eventId) || !Present(req.tierId)) ==>
              d == Checkout.Reject(400, MissingIdsError)
    ensures dbConfigured && Present(req.eventId) && Present(req.tierId) && !(1 <= Quantity(req) <= MaxQuantity) ==>
              d == Checkout.Reject(400, QuantityError)
    ensures d.Reject? ==> d.status in {400, 404, 500}
    ensures d.CreateSession? <==>
              && dbConfigured && Present(req.eventId) && Present(req.tierId)
              && 1 <= Quantity(req) <= MaxQuantity
              && req.eventId.value in events
              && events[req.eventId.value].doorOnlyMode && events[req.eventId.value].status == Published
              && TierOfEvent(tiers, req.tierId.value, req.eventId.value)
              && DoorTierAccepted(tiers[req.tierId.value], Quantity(req))
    ensures d.CreateSession? ==>
              var tier := tiers[req.tierId.value];
              d.session == Checkout.SessionRequest(tier.stripePriceId.value, req.eventId.value, req.tierId.value,
                                                   Quantity(req), Checkout.SuccessUrl(siteUrl),
                                                   Checkout.SiteBase(siteUrl) + "/door/" + req.eventId.value)
  {
    if !dbConfigured then Checkout.Reject(500, Checkout.DatabaseError)
    else if !Present(req.eventId) || !Present(req.tierId) then Checkout.Reject(400, MissingIdsError)
    else
      var eventId, tierId, quantity := req.eventId.value, req.tierId.value, Quantity(req);
      if quantity < 1 || quantity > 10 then Checkout.Reject(400, QuantityError)
      else if eventId !in events then Checkout.Reject(404, EventNotFoundError)
      else if !events[eventId].doorOnlyMode then Checkout.Reject(400, DoorDisabledError)
      else if events[eventId].status != Published then Checkout.Reject(400, EventUnavailableError)
      else if !TierOfEvent(tiers, tierId, eventId) then Checkout.Reject(404, Checkout.TierNotFoundError)
      else DecideTier(siteUrl, eventId, tierId, tiers[tierId], quantity)
  }

  /** The tier guards of door-checkout.ts, once the tier row is found. */
  function DecideTier(siteUrl: Option<string>, eventId: string, tierId: string, tier: Tier,
                      quantity: int): Checkout.Decision
  {
    if !tier.isActive then Checkout.Reject(400, InactiveError)
    else if tier.maxStock.Some? && tier.maxStock.value - tier.soldCount < quantity then
      var available := tier.maxStock.value - tier.soldCount;
      Checkout.Reject(400, if available <= 0 then DoorSoldOutError else OnlyRemaining(available))
    else if !Present(tier.stripePriceId) then Checkout.Reject(400, DoorNotConfiguredError)
    else
      CreateSessionFor(siteUrl, tier.stripePriceId.value, eventId, tierId, quantity)
  }

  function CreateSessionFor(siteUrl: Option<string>, priceId: string, eventId: string, tierId: string,
                            quantity: int): Checkout.Decision {
    Checkout.CreateSession(Checkout.SessionRequest(priceId, eventId, tierId, quantity,
                                                   Checkout.SuccessUrl(siteUrl),
                                                   Checkout.SiteBase(siteUrl) + "/door/" + eventId))
  }

  /** The whole route: the decision, then the provider's answer. */
  function Post(dbConfigured: bool, siteUrl: Option<string>, req: Request, events: map<string, Event>,
                tiers: map<string, Tier>, provider: Option<string>): (r: Checkout.Response)
    ensures r.status == 200 <==> Decide(dbConfigured, siteUrl, req, events, tiers).CreateSession? && provider.Some?
    ensures r.status == 200 ==> r.body == Checkout.Url(provider.value)
    ensures Decide(dbConfigured, siteUrl, req, events, tiers).Reject? ==>
              var d := Decide(dbConfigured, siteUrl, req, events, tiers);
              r == Checkout.Response(d.status, Checkout.Error(d.error))
    ensures Decide(dbConfigured, siteUrl, req, events, tiers).CreateSession? && provider.None? ==>
              r == Checkout.Response(500, Checkout.Error(Checkout.SessionFailedError))
  {
    match Decide(dbConfigured, siteUrl, req, events, tiers)
    case Reject(status, error) => Checkout.Response(status, Checkout.Error(error))
    case CreateSession(_) =>
      if provider.Some? then Checkout.Response(200, Checkout.Url(provider.value))
      else Checkout.Response(500, Checkout.Error(Checkout.SessionFailedError))
  }

  /** The event checks come in the order found, door-only mode, published,
      and each has its own status and message. */
  lemma EventChecksInOrder(siteUrl: Option<string>, req: Request, events: map<string, Event>, tiers: map<string, Tier>)
    requires Present(req.eventId) && Present(req.tierId) && 1 <= Quantity(req) <= MaxQuantity
    ensures var d := Decide(true, siteUrl, req, events, tiers);
            && (req.eventId.value !in events ==> d == Checkout.Reject(404, EventNotFoundError))
            && (req.eventId.value in events && !events[req.eventId.value].doorOnlyMode ==>
                  d == Checkout.Reject(400, DoorDisabledError))
            && (req.eventId.value in events && events[req.eventId.value].doorOnlyMode
                && events[req.eventId.value].status != Published ==>
                  d == Checkout.Reject(400, EventUnavailableError))
  {
  }

  /** A tier that exists but belongs to another event is "not found". */
  lemma TierOfOtherEventNotFound(siteUrl: Option<string>, req: Request, events: map<string, Event>, tiers: map<string, Tier>)
    requires Present(req.eventId) && Present(req.tierId) && 1 <= Quantity(req) <= MaxQuantity
    requires req.eventId.value in events
    requires events[req.eventId.value].doorOnlyMode && events[req.eventId.value].status == Published
    requires !TierOfEvent(tiers, req.tierId.value, req.eventId.value)
    ensures Decide(true, siteUrl, req, events, tiers) == Checkout.Reject(404, Checkout.TierNotFoundError)
  {
  }

  /** Past the event and tier lookups, the door route answers with the first
      failing door rule; a door tier is never refused for its channel. */
  lemma DecideFollowsDoorRules(siteUrl: Option<string>, req: Request, events: map<string, Event>, tiers: map<string, Tier>)
    requires Present(req.eventId) && Present(req.tierId) && 1 <= Quantity(req) <= MaxQuantity
    requires req.eventId.value in events
    requires events[req.eventId.value].doorOnlyMode && events[req.eventId.value].status == Published
    requires TierOfEvent(tiers, req.tierId.value, req.eventId.value)
    ensures var failure := FirstFailure(DoorTierChecks(tiers[req.tierId.value], Quantity(req)));
            && (failure.Some? ==> Decide(true, siteUrl, req, events, tiers) == Checkout.Reject(400, failure.value))
            && (failure.None? <==> Decide(true, siteUrl, req, events, tiers).CreateSession?)
  {
    var tier, q := tiers[req.tierId.value], Quantity(req);
    assert Decide(true, siteUrl, req, events, tiers)
           == DecideTier(siteUrl, req.eventId.value, req.tierId.value, tier, q);
    FirstFailureOfThree(ValidateTierActive(tier), DoorStock(tier, q),
                        if Present(tier.stripePriceId) then Valid else Invalid(DoorNotConfiguredError));
  }

  /** A `null` quantity is refused by the range guard, before the event is
      looked up. */
  lemma NullQuantityRefused(siteUrl: Option<string>, eventId: string, tierId: string,
                            events: map<string, Event>, tiers: map<string, Tier>)
    requires eventId != "" && tierId != ""
    ensures Decide(true, siteUrl, Request(Some(eventId), Some(tierId), Null), events, tiers)
            == Checkout.Reject(400, QuantityError)
  {
  }
}
