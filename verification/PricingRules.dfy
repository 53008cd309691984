/**
 The money of a home-service booking: quote, discount and cancellation fee.
 Amounts are whole paise, so every figure the source keeps in rupees with two
 decimals is exact here.
 */
module PricingRules {
  import opened Common

  /** The three figures a quote is made from. */
  datatype ServicePrice = ServicePrice(hourlyRate: nat, extraProRate: nat, materialsFee: nat)

  datatype Quote = Quote(base: nat, materials: nat, subtotal: nat)

  function QuoteFor(price: ServicePrice, hours: nat, professionals: nat, withMaterials: bool): Quote
    requires professionals >= 1
  {
    var base := price.hourlyRate * hours + price.extraProRate * hours * (professionals - 1);
    var materials := if withMaterials then price.materialsFee else 0;
    Quote(base, materials, base + materials)
  }

  /** What the professionals' team costs, counted one professional and one hour at a time. */
  function TeamCost(price: ServicePrice, hours: nat, professionals: nat): nat {
    if professionals == 0 then 0
    else TeamCost(price, hours, professionals - 1) +
         HoursCost(if professionals == 1 then price.hourlyRate else price.extraProRate, hours)
  }

  function HoursCost(rate: nat, hours: nat): nat {
    if hours == 0 then 0 else HoursCost(rate, hours - 1) + rate
  }

  lemma {:induction false} HoursCostIsProduct(rate: nat, hours: nat)
    ensures HoursCost(rate, hours) == rate * hours
  {
    if hours > 0 {
      HoursCostIsProduct(rate, hours - 1);
      assert rate * hours == rate * (hours - 1) + rate;
    }
  }

  /** The quote is the sum over every professional and every hour, plus the materials once. */
  lemma {:induction false} QuoteIsPerProfessionalPerHour(
      price: ServicePrice, hours: nat, professionals: nat, withMaterials: bool)
    requires professionals >= 1
    ensures var q := QuoteFor(price, hours, professionals, withMaterials);
            && q.base == TeamCost(price, hours, professionals)
            && q.subtotal == TeamCost(price, hours, professionals)
                             + (if withMaterials then price.materialsFee else 0)
  {
    if professionals == 1 {
      HoursCostIsProduct(price.hourlyRate, hours);
      assert TeamCost(price, hours, 0) == 0;
    } else {
      QuoteIsPerProfessionalPerHour(price, hours, professionals - 1, withMaterials);
      HoursCostIsProduct(price.extraProRate, hours);
      var x := price.extraProRate * hours;
      assert x * (professionals - 1) == x * (professionals - 2) + x;
    }
  }

  // ── promo codes ──

  /** Days are calendar days; a code's last day is inclusive. Zero maxDiscount means no cap. */
  datatype PromoRule = PromoRule(percent: nat, maxDiscount: nat, minOrder: nat, validTill: int, active: bool)

  datatype Refusal = UnknownCode | Expired | SwitchedOff | BelowMinimum(shortBy: int)

  datatype Applied = Applied(discount: nat, capped: bool)

  /** Half-up rounding to whole rupees of subtotal * percent / 100, in paise. */
  function RawDiscount(subtotal: nat, percent: nat): nat {
    (subtotal * percent + 5000) / 10000 * 100
  }

  function ApplyPromo(promo: Option<PromoRule>, subtotal: nat, today: int): Result<Applied, Refusal> {
    if promo.None? then Err(UnknownCode)
    else if promo.value.validTill < today then Err(Expired)
    else if !promo.value.active then Err(SwitchedOff)
    else if subtotal < promo.value.minOrder then Err(BelowMinimum(promo.value.minOrder - subtotal))
    else
      var raw := RawDiscount(subtotal, promo.value.percent);
      var discount := if promo.value.maxDiscount > 0 && promo.value.maxDiscount < raw
                      then promo.value.maxDiscount else raw;
      Ok(Applied(discount, discount < raw))
  }

  /** The uncapped discount is the whole-rupee amount nearest the exact percentage (half up). */
  lemma RawDiscountIsNearestRupee(subtotal: nat, percent: nat)
    ensures var d := RawDiscount(subtotal, percent);
            && d % 100 == 0
            && subtotal * percent - 5000 < 100 * d <= subtotal * percent + 5000
  {
    var x := subtotal * percent + 5000;
    assert x == x / 10000 * 10000 + x % 10000;
  }

  /** An accepted code takes the rounded percentage, or its cap when that is lower and says so. */
  lemma AcceptedDiscount(promo: PromoRule, subtotal: nat, today: int)
    ensures var r := ApplyPromo(Some(promo), subtotal, today);
            && (r.Ok? <==> today <= promo.validTill && promo.active && promo.minOrder <= subtotal)
            && (r.Ok? ==>
                  var d := r.value.discount;
                  && 100 * d <= subtotal * promo.percent + 5000
                  && (promo.maxDiscount > 0 ==> d <= promo.maxDiscount)
                  && (r.value.capped <==> d != RawDiscount(subtotal, promo.percent))
                  && (r.value.capped ==> d == promo.maxDiscount > 0)
                  && (!r.value.capped ==> subtotal * promo.percent - 5000 < 100 * d))
  {
    RawDiscountIsNearestRupee(subtotal, promo.percent);
  }

  /** Why a code is refused: the first reason, in this order, and how much the order is short. */
  lemma RefusedFor(promo: Option<PromoRule>, subtotal: nat, today: int)
    ensures var r := ApplyPromo(promo, subtotal, today);
            && (r == Err(UnknownCode) <==> promo.None?)
            && (promo.Some? ==>
                  && (r == Err(Expired) <==> promo.value.validTill < today)
                  && (r == Err(SwitchedOff) <==> today <= promo.value.validTill && !promo.value.active)
                  && (forall shortBy :: r == Err(BelowMinimum(shortBy)) <==>
                        today <= promo.value.validTill && promo.value.active && shortBy > 0 && subtotal + shortBy == promo.value.minOrder))
  {
    if promo.Some? && promo.value.active && today <= promo.value.validTill {
      AcceptedDiscount(promo.value, subtotal, today);
    }
  }

  /**
   When rounding up to a whole rupee cannot pass the subtotal: either the
   percentage of the subtotal stays below the next half rupee over its whole
   rupees, or a cap within the subtotal applies.
   */
  predicate DiscountFits(promo: PromoRule, subtotal: nat) {
    || subtotal * promo.percent < 100 * (subtotal - subtotal % 100) + 5000
    || 0 < promo.maxDiscount <= subtotal
  }

  /** A discount stays within the subtotal exactly when DiscountFits holds, for every accepted code. */
  lemma DiscountWithinSubtotal(promo: PromoRule, subtotal: nat, today: int)
    requires ApplyPromo(Some(promo), subtotal, today).Ok?
    ensures ApplyPromo(Some(promo), subtotal, today).value.discount <= subtotal
            <==> DiscountFits(promo, subtotal)
  {
    var x := subtotal * promo.percent + 5000;
    var rupees := subtotal / 100;
    var raw := x / 10000;
    assert RawDiscount(subtotal, promo.percent) == raw * 100;
    assert subtotal - subtotal % 100 == rupees * 100;
    assert raw * 100 <= subtotal <==> raw <= rupees;
    assert raw <= rupees <==> x < 10000 * (rupees + 1);
  }

  /** It holds for every code up to 90% on 5 rupees or more, and up to 100% on whole rupees. */
  lemma DiscountFitsInPractice(promo: PromoRule, subtotal: nat)
    requires (promo.percent <= 90 && subtotal >= 500) || (promo.percent <= 100 && subtotal % 100 == 0)
    ensures DiscountFits(promo, subtotal)
  {
    var whole := subtotal - subtotal % 100;
    if promo.percent <= 100 && subtotal % 100 == 0 {
      assert subtotal * promo.percent <= subtotal * 100;
    } else {
      assert subtotal * promo.percent <= subtotal * 90;
    }
  }

  /**
   Without it the promise fails: one professional for one hour at 1.67 rupees,
   90% off, takes 2 rupees, and the total is negative.
   */
  lemma DiscountCanExceedSubtotal()
    ensures var promo := PromoRule(90, 0, 0, 0, true);
            var subtotal := QuoteFor(ServicePrice(167, 0, 0), 1, 1, false).subtotal;
            && subtotal == 167
            && ApplyPromo(Some(promo), subtotal, 0) == Ok(Applied(200, false))
            && !DiscountFits(promo, subtotal)
  {
    assert 167 * 90 == 15030;
    assert RawDiscount(167, 90) == 200;
  }

  // ── cancelling late ──

  const FREE_CANCELLATION_MS := 2 * 3_600_000

  /** 10% of the total, rounded half up to a paisa. */
  function LateFee(total: int): int {
    (total + 5) / 10
  }

  /**
   The fee is a tenth to within half a paisa, never more than the total, and
   what is left to refund is always more than half of what was paid. That last
   fact is what stops a second refund of the same amount from fitting.
   */
  function CancellationFee(total: int, bookedAt: int, now: int): (fee: int)
    ensures now - bookedAt <= 7_200_000 ==> fee == 0
    ensures now - bookedAt > 7_200_000 ==> -5 <= total - 10 * fee < 5
    ensures total > 0 ==> 0 <= fee < total && 2 * (total - fee) > total
  {
    if now - bookedAt <= FREE_CANCELLATION_MS then 0 else LateFee(total)
  }
}
