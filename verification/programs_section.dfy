/** The home page's program cards: a constant list of campaigns and the
    progress bar width computed for each. */
module ProgramsSection {
  import Aggregates

  datatype Campaign = Campaign(title: string, raised: int, target: int, donors: nat)

  /** The four cards, in display order. */
  const Campaigns: seq<Campaign> := [
    Campaign("Pendidikan Anak Bangsa", 25000000, 50000000, 128),
    Campaign("Bantuan Kesehatan", 32000000, 75000000, 256),
    Campaign("Pemberdayaan UMKM", 18000000, 40000000, 89),
    Campaign("Jakarta Hijau", 12000000, 30000000, 156)
  ]

  /** `calculateProgress`: the bar width in percent, capped at 100. The
      source has no guard for a zero target, hence the precondition. */
  function CalculateProgress(raised: int, target: int): (p: real)
    requires target > 0
    ensures p <= 100.0
    ensures raised >= 0 ==> p >= 0.0
    ensures raised < target <==> p < 100.0
    ensures p * target as real == 100.0 * raised as real || p == 100.0
  {
    Aggregates.Percentage(raised, target)
  }

  /** The education card (25,000,000 of 50,000,000) is exactly half way. */
  lemma EducationIsHalfWay()
    ensures Campaigns[0].title == "Pendidikan Anak Bangsa"
    ensures CalculateProgress(Campaigns[0].raised, Campaigns[0].target) == 50.0
  {
  }

  /** Every card has a positive target, has not reached it, and so shows a
      bar strictly between 0 and 100 percent. */
  lemma EveryCardBelowTarget()
    ensures forall c :: c in Campaigns ==>
      0 <= c.raised < c.target && 0.0 <= CalculateProgress(c.raised, c.target) < 100.0
  {
  }
}
