/** The home page's headline figures: all donations plus all monthly pledges,
    the donor count and the member count, refreshed on every change to
    either table. */
module HeroSection {
  import opened Service
  import opened Records
  import opened Aggregates

  datatype Figures = Figures(totalDonations: int, totalDonors: nat, totalMembers: nat)

  /** One run of `fetchStats` as written: the donations read sets the total
      and the donor count; the members read then adds the monthly sum to
      whatever the total is at that point and sets the member count. */
  function AfterFetchStats(held: Figures, donationsRead: Fetch<Donation>, membersRead: Fetch<Member>): (f: Figures)
  {
    var afterDonations :=
      match donationsRead
      case Rows(ds) => held.(totalDonations := SumAmounts(ds), totalDonors := |ds|)
      case NoData => held;
    match membersRead
    case Rows(ms) => afterDonations.(totalDonations := afterDonations.totalDonations + SumMonthly(ms), totalMembers := |ms|)
    case NoData => afterDonations
  }

  /** The "donors" figure on the page: `totalDonors + totalMembers`. */
  function DisplayedDonors(f: Figures): (n: nat)
  {
    f.totalDonors + f.totalMembers
  }

  /** When both reads return data the total is every donation (no type
      filter) plus every pledge, and the counts are the row counts. */
  lemma BothReadsGiveFullTotal(held: Figures, ds: seq<Donation>, ms: seq<Member>)
    ensures var f := AfterFetchStats(held, Rows(ds), Rows(ms));
      && f.totalDonations == SumAmounts(ds) + SumMonthly(ms)
      && DisplayedDonors(f) == |ds| + |ms|
      && f.totalMembers == |ms|
  {
  }

  /** When the members read returns nothing, the total is the donation sum
      alone and the member count stays as it was. */
  lemma FailedMembersReadGivesDonationsOnly(held: Figures, ds: seq<Donation>)
    ensures var f := AfterFetchStats(held, Rows(ds), NoData);
      && f.totalDonations == SumAmounts(ds)
      && f.totalDonors == |ds|
      && f.totalMembers == held.totalMembers
  {
  }

  /** The headline total never falls below the general-donation total the
      progress widget shows, when amounts and pledges are non-negative. */
  lemma HeadlineCoversGeneralTotal(held: Figures, ds: seq<Donation>, ms: seq<Member>)
    requires forall d :: d in ds ==> d.amount >= 0
    requires SumMonthly(ms) >= 0
    ensures AfterFetchStats(held, Rows(ds), Rows(ms)).totalDonations >= SumAmounts(OfType(ds, GeneralType))
  {
    SumOfTypeAtMostSum(ds, GeneralType);
  }

  /** `n` refreshes that all get the same answers. */
  function RefreshTimes(held: Figures, donationsRead: Fetch<Donation>, membersRead: Fetch<Member>, n: nat): (f: Figures)
  {
    if n == 0 then held else AfterFetchStats(RefreshTimes(held, donationsRead, membersRead, n - 1), donationsRead, membersRead)
  }

  /** As written: while the donations read keeps failing and the members read
      succeeds, every refresh adds the monthly sum to the total again. */
  lemma {:induction false} FailedDonationsReadAccumulates(held: Figures, ms: seq<Member>, n: nat)
    ensures RefreshTimes(held, NoData, Rows(ms), n).totalDonations == held.totalDonations + n * SumMonthly(ms)
  {
    if n > 0 {
      FailedDonationsReadAccumulates(held, ms, n - 1);
    }
  }

  /** As written, one member pledging 100,000 and a failing donations read:
      the first refresh shows 200,000 over a held 100,000, the second 300,000. */
  lemma AccumulationExample()
    ensures var ms := [Member("m1", "Ani", "ani@example.com", "0812", 100000, Unpaid, "")];
      var held := Figures(100000, 0, 1);
      && AfterFetchStats(held, NoData, Rows(ms)).totalDonations == 200000
      && RefreshTimes(held, NoData, Rows(ms), 2).totalDonations == 300000
  {
    var ms := [Member("m1", "Ani", "ani@example.com", "0812", 100000, Unpaid, "")];
    FailedDonationsReadAccumulates(Figures(100000, 0, 1), ms, 2);
  }

  // The evidently intended behaviour: the headline total is the donation sum
  // plus the pledge sum, each kept from its own latest successful read.

  datatype IntendedFigures = IntendedFigures(donationSum: int, pledgeSum: int, totalDonors: nat, totalMembers: nat)

  function IntendedTotal(f: IntendedFigures): (total: int)
  {
    f.donationSum + f.pledgeSum
  }

  function IntendedAfterFetchStats(held: IntendedFigures, donationsRead: Fetch<Donation>, membersRead: Fetch<Member>): (f: IntendedFigures)
  {
    var afterDonations :=
      match donationsRead
      case Rows(ds) => held.(donationSum := SumAmounts(ds), totalDonors := |ds|)
      case NoData => held;
    match membersRead
    case Rows(ms) => afterDonations.(pledgeSum := SumMonthly(ms), totalMembers := |ms|)
    case NoData => afterDonations
  }

  /** Corrected: refreshing again with the same answers changes nothing, so
      repeated notifications cannot inflate the total. */
  lemma IntendedRefreshIsStable(held: IntendedFigures, donationsRead: Fetch<Donation>, membersRead: Fetch<Member>)
    ensures var once := IntendedAfterFetchStats(held, donationsRead, membersRead);
      IntendedAfterFetchStats(once, donationsRead, membersRead) == once
  {
  }

  /** Corrected: when both reads succeed it shows what the code as written shows. */
  lemma IntendedAgreesWhenBothRead(held: IntendedFigures, asWritten: Figures, ds: seq<Donation>, ms: seq<Member>)
    ensures var f := IntendedAfterFetchStats(held, Rows(ds), Rows(ms));
      var g := AfterFetchStats(asWritten, Rows(ds), Rows(ms));
      && IntendedTotal(f) == g.totalDonations
      && f.totalDonors == g.totalDonors && f.totalMembers == g.totalMembers
  {
  }

  class Hero {
    var totalDonations: int
    var totalDonors: nat
    var totalMembers: nat

    constructor ()
      ensures totalDonations == 0 && totalDonors == 0 && totalMembers == 0
    {
      totalDonations, totalDonors, totalMembers := 0, 0, 0;
    }

    /** `fetchStats`, run at mount and on every change to either table. */
    method FetchStats(donationsRead: Fetch<Donation>, membersRead: Fetch<Member>)
      modifies this
      ensures Figures(totalDonations, totalDonors, totalMembers)
           == AfterFetchStats(Figures(old(totalDonations), old(totalDonors), old(totalMembers)), donationsRead, membersRead)
    {
      if donationsRead.Rows? {
        var total := SumAmounts(donationsRead.rows);
        totalDonations := total;
        totalDonors := |donationsRead.rows|;
      }
      if membersRead.Rows? {
        var monthlyTotal := SumMonthly(membersRead.rows);
        totalDonations := totalDonations + monthlyTotal;
        totalMembers := |membersRead.rows|;
      }
    }
  }
}
