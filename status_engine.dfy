/** The status engine (backend/database.py:38-51): the signed number of days
    until a subscription expires, and the status tier that number falls in.
    The source reads today's date itself; here it is a parameter. */
module StatusEngine {
  import opened Models

  /** The last day count, inclusive, at which a subscription is `Expiring`. */
  const ExpiringWindow := 7

  /** Days from `today` until `expirationDate`; negative once it has passed.
      Adding the result to `today` gives the expiration date back. */
  function DaysRemaining(expirationDate: Date, today: Date): (d: int)
    ensures today + d == expirationDate
    ensures d < 0 <==> expirationDate < today
  {
    expirationDate - today
  }

  /** The tier a day count falls in: `Expired` below zero, `Expiring` from zero
      to seven inclusive, `Active` above seven. Exactly one tier holds for
      every day count. */
  function CalculateStatus(daysRemaining: int): (s: SubscriberStatus)
    ensures s == Expired <==> daysRemaining < 0
    ensures s == Expiring <==> 0 <= daysRemaining <= ExpiringWindow
    ensures s == Active <==> daysRemaining > ExpiringWindow
  {
    if daysRemaining < 0 then Expired
    else if daysRemaining <= ExpiringWindow then Expiring
    else Active
  }

  /** The status of a subscription expiring on `expirationDate`, seen on `today`. */
  function StatusOn(expirationDate: Date, today: Date): SubscriberStatus
  {
    CalculateStatus(DaysRemaining(expirationDate, today))
  }

  /** Orders the tiers from worst to best. */
  function Rank(s: SubscriberStatus): nat
  {
    match s
    case Expired => 0
    case Expiring => 1
    case Active => 2
  }

  /** More days remaining never gives a worse tier. */
  lemma StatusMonotone(d1: int, d2: int)
    requires d1 <= d2
    ensures Rank(CalculateStatus(d1)) <= Rank(CalculateStatus(d2))
  {
  }

  /** As days pass, a subscription's tier never improves by itself. */
  lemma StatusNeverImprovesOverTime(expirationDate: Date, day1: Date, day2: Date)
    requires day1 <= day2
    ensures Rank(StatusOn(expirationDate, day2)) <= Rank(StatusOn(expirationDate, day1))
  {
    StatusMonotone(DaysRemaining(expirationDate, day2), DaysRemaining(expirationDate, day1));
  }

  /** The boundaries: seven days ahead is still `Expiring`, eight days ahead is
      `Active`, yesterday is `Expired`, and today itself is `Expiring`. */
  lemma StatusBoundaries(today: Date)
    ensures StatusOn(today + 7, today) == Expiring
    ensures StatusOn(today + 8, today) == Active
    ensures StatusOn(today - 1, today) == Expired
    ensures StatusOn(today, today) == Expiring
  {
  }
}
