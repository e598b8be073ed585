/** The Early Bird offer configuration: a single document that caps how many
    accounts may claim the promotional plan. Amounts are whole rupees. */
module EarlyBirdModel {

  datatype OfferType = Free | Discounted

  function OfferName(t: OfferType): string
  {
    match t
    case Free => "free"
    case Discounted => "discounted"
  }

  datatype EarlyBirdConfig = EarlyBirdConfig(
    maxUsers: int,
    usersClaimed: int,
    isActive: bool,
    offerType: OfferType,
    discountedAmount: int,
    durationDays: int)

  /** The `min` bounds of the schema. */
  predicate Valid(c: EarlyBirdConfig)
  {
    c.maxUsers >= 0 && c.usersClaimed >= 0 && c.discountedAmount >= 0 && c.durationDays >= 1
  }

  /** `EarlyBirdConfig.create({})`: every field at its default. The fresh
      configuration is valid and has all of its slots free. */
  function DefaultConfig(): (c: EarlyBirdConfig)
    ensures Valid(c) && c.isActive && c.usersClaimed == 0 && c.maxUsers == 100
    ensures c.offerType == Free && c.discountedAmount == 0 && c.durationDays == 30
  {
    EarlyBirdConfig(100, 0, true, Free, 0, 30)
  }
}
