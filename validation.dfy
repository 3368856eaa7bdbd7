/** The checkout validation rules and the refund arithmetic, as the shared
    test file extracts them from the checkout route and the payment webhook:
    each rule is a pure function of the tier and the quantity that returns
    "valid" or "invalid, with this message". Money is in integer cents. */
module Validation {
  import opened Common

  datatype TierType = Online | Door

  /** A ticket tier row: the fields the rules read. */
  datatype Tier = Tier(
    id: string,
    eventId: string,
    tierType: TierType,
    stripePriceId: Option<string>,
    maxStock: Option<int>,
    soldCount: int,
    isActive: bool)

  /** `{valid: true}` or `{valid: false, error}`. */
  datatype Check = Valid | Invalid(error: string)

  datatype OrderStatus = Completed | Refunded | PartiallyRefunded

  const MaxQuantity := 10

  const QuantityError := "Quantity must be between 1 and 10"
  const InactiveError := "This ticket tier is not available"
  const DoorOnlyError := "This ticket is only available at the door"
  const SoldOutError := "This ticket tier is sold out"
  const NotConfiguredError := "Ticket not configured for online purchase"

  /** "Only N tickets remaining". */
  function OnlyRemaining(available: nat): string {
    "Only " + NatToDecimal(available) + " tickets remaining"
  }

  function ValidateQuantity(quantity: int): (r: Check)
    ensures r.Valid? <==> 1 <= quantity <= MaxQuantity
    ensures r.Invalid? ==> r.error == QuantityError
  {
    if quantity < 1 || quantity > 10 then Invalid(QuantityError) else Valid
  }

  function ValidateTierActive(tier: Tier): (r: Check)
    ensures r.Valid? <==> tier.isActive
    ensures r.Invalid? ==> r.error == InactiveError
  {
    if !tier.isActive then Invalid(InactiveError) else Valid
  }

  function ValidateTierType(tier: Tier): (r: Check)
    ensures r.Invalid? <==> tier.tierType == Door
    ensures r.Invalid? ==> r.error == DoorOnlyError
  {
    if tier.tierType == Door then Invalid(DoorOnlyError) else Valid
  }

  /** Tickets left under the cap: `max_stock - sold_count`. */
  function Available(tier: Tier): int
    requires tier.maxStock.Some?
  {
    tier.maxStock.value - tier.soldCount
  }

  function ValidateStock(tier: Tier, quantity: int): (r: Check)
    ensures tier.maxStock.None? ==> r.Valid?
    ensures tier.maxStock.Some? ==> (r.Valid? <==> Available(tier) >= quantity)
    ensures r.Invalid? && Available(tier) <= 0 ==> r.error == SoldOutError
    ensures r.Invalid? && Available(tier) > 0 ==>
              Available(tier) < quantity && r.error == OnlyRemaining(Available(tier))
  {
    if tier.maxStock.Some? then
      var available := tier.maxStock.value - tier.soldCount;
      if available < quantity then
        if available <= 0 then Invalid(SoldOutError) else Invalid(OnlyRemaining(available))
      else Valid
    else Valid
  }

  function ValidateStripeConfig(tier: Tier): (r: Check)
    ensures r.Invalid? <==> !Present(tier.stripePriceId)
    ensures r.Invalid? ==> r.error == NotConfiguredError
  {
    if !Present(tier.stripePriceId) then Invalid(NotConfiguredError) else Valid
  }

  /** The message of the first failing check, in order, if any fails. */
  function FirstFailure(checks: seq<Check>): (r: Option<string>)
    ensures r.None? <==> forall i :: 0 <= i < |checks| ==> checks[i].Valid?
    ensures r.Some? ==> exists i :: 0 <= i < |checks| && checks[i] == Invalid(r.value)
                                   && forall j :: 0 <= j < i ==> checks[j].Valid?
    decreases |checks|
  {
    if checks == [] then None
    else if checks[0].Invalid? then Some(checks[0].error)
    else
      var rest := FirstFailure(checks[1..]);
      if rest.Some? then
        ghost var i :| 0 <= i < |checks| - 1 && checks[1..][i] == Invalid(rest.value)
                     && forall j :: 0 <= j < i ==> checks[1..][j].Valid?;
        assert checks[i + 1] == Invalid(rest.value);
        rest
      else rest
  }

  /** `FirstFailure` on three checks, spelled out. */
  lemma FirstFailureOfThree(a: Check, b: Check, c: Check)
    ensures FirstFailure([a, b, c]) ==
              if a.Invalid? then Some(a.error)
              else if b.Invalid? then Some(b.error)
              else if c.Invalid? then Some(c.error)
              else None
  {
    FirstFailureCons([a, b, c]);
    assert [a, b, c][1..] == [b, c];
    FirstFailureCons([b, c]);
    assert [b, c][1..] == [c];
    FirstFailureCons([c]);
    assert [c][1..] == [];
  }

  /** One step of `FirstFailure`. */
  lemma FirstFailureCons(checks: seq<Check>)
    requires checks != []
    ensures FirstFailure(checks) == if checks[0].Invalid? then Some(checks[0].error) else FirstFailure(checks[1..])
  {
  }

  /** `FirstFailure` on four checks, spelled out. */
  lemma FirstFailureOfFour(a: Check, b: Check, c: Check, d: Check)
    ensures FirstFailure([a, b, c, d]) ==
              if a.Invalid? then Some(a.error)
              else if b.Invalid? then Some(b.error)
              else if c.Invalid? then Some(c.error)
              else if d.Invalid? then Some(d.error)
              else None
  {
    FirstFailureCons([a, b, c, d]);
    assert [a, b, c, d][1..] == [b, c, d];
    FirstFailureOfThree(b, c, d);
  }

  /** The tier rules of the online path, in the order the route applies them. */
  function OnlineTierChecks(tier: Tier, quantity: int): seq<Check> {
    [ValidateTierActive(tier), ValidateTierType(tier), ValidateStock(tier, quantity),
     ValidateStripeConfig(tier)]
  }

  // ---------------------------------------------------------------------------
  // Refund arithmetic

  /** `calculateRefundStatus`: full when at least the amount paid came back. */
  function CalculateRefundStatus(refunded: int, original: int): (r: OrderStatus)
    ensures r == Refunded <==> refunded >= original
    ensures r == PartiallyRefunded <==> refunded < original
  {
    if refunded >= original then Refunded else PartiallyRefunded
  }

  /** `calculateTicketsToReturn`: a full refund releases the whole order, a
      partial one `floor(refunded / original * quantity)` tickets (computed here
      exactly on integers; `/` with a positive divisor is floor division). */
  function CalculateTicketsToReturn(refunded: nat, original: nat, quantity: int, isFullRefund: bool): (r: int)
    requires isFullRefund || original > 0
    ensures isFullRefund ==> r == quantity
    ensures !isFullRefund ==> r * original <= refunded * quantity < (r + 1) * original
  {
    if isFullRefund then quantity else (refunded * quantity) / original
  }

  /** A partial refund releases no more tickets than the order holds, and none
      that it did not pay back in full. */
  lemma PartialRefundBounds(refunded: nat, original: nat, quantity: nat)
    requires refunded < original
    ensures 0 <= CalculateTicketsToReturn(refunded, original, quantity, false) <= quantity
    ensures quantity > 0 ==> CalculateTicketsToReturn(refunded, original, quantity, false) < quantity
  {
  }

  /** A larger partial refund never releases fewer tickets. */
  lemma TicketsToReturnMonotone(a: nat, b: nat, original: nat, quantity: nat)
    requires a <= b < original
    ensures CalculateTicketsToReturn(a, original, quantity, false)
            <= CalculateTicketsToReturn(b, original, quantity, false)
  {
    var ra := CalculateTicketsToReturn(a, original, quantity, false);
    var rb := CalculateTicketsToReturn(b, original, quantity, false);
    assert a * quantity <= b * quantity by {
      assert b * quantity - a * quantity == (b - a) * quantity;
    }
    assert ra * original < (rb + 1) * original;
    FactorCancel(ra, rb + 1, original);
  }

  lemma FactorCancel(x: int, y: int, c: int)
    requires c > 0 && x * c < y * c
    ensures x < y
  {
    assert (y - x) * c == y * c - x * c;
  }

  // ---------------------------------------------------------------------------
  // The test file's assertions

  lemma QuantityExamples()
    ensures ValidateQuantity(1) == Valid && ValidateQuantity(5) == Valid && ValidateQuantity(10) == Valid
    ensures ValidateQuantity(0) == Invalid("Quantity must be between 1 and 10")
    ensures ValidateQuantity(11) == Invalid("Quantity must be between 1 and 10")
    ensures ValidateQuantity(-1) == Invalid("Quantity must be between 1 and 10")
  {
  }

  /** The test file's stock cases that pass, and the sold-out one. */
  lemma StockExamples()
    ensures ValidateStock(Tier("1", "e", Online, Some("price_123"), Some(100), 90, true), 5) == Valid
    ensures ValidateStock(Tier("1", "e", Online, Some("price_123"), None, 1000, true), 10) == Valid
    ensures ValidateStock(Tier("1", "e", Online, Some("price_123"), Some(100), 100, true), 1)
            == Invalid(SoldOutError)
  {
  }

  /** With 97 of 100 sold, five tickets are refused with "Only 3 tickets
      remaining". */
  lemma OnlyThreeRemaining()
    ensures ValidateStock(Tier("1", "e", Online, Some("price_123"), Some(100), 97, true), 5)
            == Invalid(OnlyRemaining(3))
    ensures OnlyRemaining(3) == "Only 3 tickets remaining"
  {
    assert NatToDecimal(3) == "3";
  }

  lemma RefundExamples()
    ensures CalculateRefundStatus(100, 100) == Refunded && CalculateRefundStatus(110, 100) == Refunded
    ensures CalculateRefundStatus(50, 100) == PartiallyRefunded && CalculateRefundStatus(1, 100) == PartiallyRefunded
    ensures CalculateTicketsToReturn(100, 100, 4, true) == 4
    ensures CalculateTicketsToReturn(50, 100, 4, false) == 2
    ensures CalculateTicketsToReturn(33, 100, 4, false) == 1
    ensures CalculateTicketsToReturn(5, 100, 4, false) == 0
  {
  }
}
