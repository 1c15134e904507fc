/**
 * The pricing page's table (frontend/src/app/pricing/page.tsx): three
 * plans priced per month and per year, the billing-period switch, and
 * the advertised yearly saving.  Prices are whole dollars.
 */
module Pricing {

  datatype BillingPeriod = Monthly | Yearly

  datatype Price = Price(monthly: nat, yearly: nat)

  datatype Plan = Plan(name: string, price: Price, popular: bool)

  /** `plans`, reduced to the fields the price display uses. */
  const Plans: seq<Plan> := [
    Plan("Starter", Price(9, 90), false),
    Plan("Creator", Price(29, 290), true),
    Plan("Pro", Price(79, 790), false)
  ]

  /** `useState<"monthly" | "yearly">("monthly")` */
  const InitialPeriod := Monthly

  /** The "Save 17%" badge on the yearly button. */
  const AdvertisedSavingPercent: nat := 17

  /** `plan.price[billingPeriod]` */
  function PriceFor(plan: Plan, period: BillingPeriod): (amount: nat)
    ensures amount == plan.price.monthly || amount == plan.price.yearly
    ensures plan.price.yearly == 10 * plan.price.monthly ==>
      amount == (if period == Yearly then 10 else 1) * plan.price.monthly
  {
    match period
    case Monthly => plan.price.monthly
    case Yearly => plan.price.yearly
  }

  /** What one plan card shows: the amount, `/mo` or `/yr`, and whether the per-month line is shown. */
  datatype PriceCard = PriceCard(amount: nat, suffix: string, showsPerMonth: bool)

  function RenderPriceCard(plan: Plan, period: BillingPeriod): (card: PriceCard)
    ensures card.amount == PriceFor(plan, period)
    ensures card.suffix == (if period == Monthly then "/mo" else "/yr")
    ensures card.showsPerMonth <==> period == Yearly
  {
    PriceCard(PriceFor(plan, period), if period == Monthly then "/mo" else "/yr", period == Yearly)
  }

  /**
   * One yearly payment saves `percent` percent of twelve monthly ones,
   * rounded to the nearest whole number: the exact saving
   * 100 * (12 * monthly - yearly) / (12 * monthly) lies in
   * [percent - 1/2, percent + 1/2).
   */
  predicate SavingRoundsTo(price: Price, percent: nat)
  {
    var twelve := 12 * price.monthly;
    (2 * percent - 1) * twelve <= 200 * (twelve - price.yearly) < (2 * percent + 1) * twelve
  }

  /** A year priced at ten months saves 2/12 = 16.7% of twelve payments, which rounds to 17% and to nothing else. */
  lemma TenMonthsSaves17Percent(monthly: nat, percent: nat)
    requires monthly > 0
    ensures SavingRoundsTo(Price(monthly, 10 * monthly), percent) <==> percent == 17
  {
    var twelve := 12 * monthly;
    assert 200 * (twelve - 10 * monthly) == 400 * monthly;
    if percent < 17 {
      MultiplyMonotonic(2 * percent + 1, 33, twelve);
    } else if percent > 17 {
      MultiplyMonotonic(35, 2 * percent - 1, twelve);
    }
  }

  lemma {:induction false} MultiplyMonotonic(a: int, b: int, c: nat)
    requires a <= b
    ensures a * c <= b * c
  {
    if c > 0 {
      MultiplyMonotonic(a, b, c - 1);
      assert a * c == a * (c - 1) + a && b * c == b * (c - 1) + b;
    }
  }

  /** Every plan's yearly price is ten monthly prices, so every plan saves the advertised 17%. */
  lemma EveryPlanSavesAdvertisedPercent()
    ensures forall i :: 0 <= i < |Plans| ==> Plans[i].price.yearly == 10 * Plans[i].price.monthly
    ensures forall i :: 0 <= i < |Plans| ==>
      SavingRoundsTo(Plans[i].price, AdvertisedSavingPercent)
  {
    forall i | 0 <= i < |Plans|
      ensures SavingRoundsTo(Plans[i].price, AdvertisedSavingPercent)
    {
      TenMonthsSaves17Percent(Plans[i].price.monthly, AdvertisedSavingPercent);
    }
  }

  /** For every plan the yearly card shows ten times the monthly card's amount. */
  lemma YearlyCardIsTenMonthlyCards(i: nat)
    requires i < |Plans|
    ensures RenderPriceCard(Plans[i], Yearly).amount == 10 * RenderPriceCard(Plans[i], Monthly).amount
  {
  }

  /** Exactly one plan, Creator, is marked popular. */
  lemma OnlyCreatorIsPopular()
    ensures forall i :: 0 <= i < |Plans| ==> (Plans[i].popular <==> Plans[i].name == "Creator")
    ensures forall i, j :: 0 <= i < |Plans| && 0 <= j < |Plans| && Plans[i].popular && Plans[j].popular ==> i == j
    ensures exists i :: 0 <= i < |Plans| && Plans[i].popular
  {
    assert Plans[1].popular;
  }

  /** Monthly prices strictly increase from Starter to Creator to Pro. */
  lemma MonthlyPricesIncrease()
    ensures forall i, j :: 0 <= i < j < |Plans| ==> Plans[i].price.monthly < Plans[j].price.monthly
  {
  }

  /** The page opens on monthly prices, without the per-month line. */
  lemma OpensOnMonthly(i: nat)
    requires i < |Plans|
    ensures RenderPriceCard(Plans[i], InitialPeriod) == PriceCard(Plans[i].price.monthly, "/mo", false)
  {
  }
}
