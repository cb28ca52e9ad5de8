/** The general-donation progress widget: the total and donor count of the
    "umum" donations, re-derived in full on every change notification, and
    the bar clamped at 100 percent of a fixed target. */
module DonationProgress {
  import opened Service
  import opened Records
  import opened Aggregates

  /** The fixed fundraising target, in rupiah. */
  const Target := 50000000

  datatype Totals = Totals(raised: int, donors: nat)

  /** What `onDataLoad` receives. */
  datatype Report = Report(raised: int, target: int, donors: nat)

  /** The figures one read of the donations table yields: the query keeps the
      rows of type "umum", sums their amounts and counts them. */
  function GeneralTotals(table: seq<Donation>): (t: Totals)
    ensures t.donors <= |table|
  {
    var rows := OfType(table, GeneralType);
    Totals(SumAmounts(rows), |rows|)
  }

  /** One run of `fetchDonationStats`: data replaces the figures, an error or
      null data keeps them. */
  function AfterFetch(held: Totals, read: Fetch<Donation>): (t: Totals)
    ensures read.NoData? ==> t == held
  {
    match read
    case Rows(table) => GeneralTotals(table)
    case NoData => held
  }

  /** The figures after one fetch per notification, in arrival order. */
  function Replay(held: Totals, answers: seq<Fetch<Donation>>): (t: Totals)
  {
    if answers == [] then held else AfterFetch(Replay(held, answers[..|answers| - 1]), answers[|answers| - 1])
  }

  /** The table seen by the last read that returned data, if any did. */
  function LastTable(answers: seq<Fetch<Donation>>): (last: Option<seq<Donation>>)
  {
    if answers == [] then None
    else match answers[|answers| - 1]
      case Rows(table) => Some(table)
      case NoData => LastTable(answers[..|answers| - 1])
  }

  /** The figures depend only on the latest read that returned data, not on
      how many notifications arrived or what failed in between. */
  lemma {:induction false} ReplayDependsOnLatestRead(held: Totals, answers: seq<Fetch<Donation>>)
    ensures Replay(held, answers) == match LastTable(answers)
                                  case None => held
                                  case Some(table) => GeneralTotals(table)
  {
    if answers != [] {
      ReplayDependsOnLatestRead(held, answers[..|answers| - 1]);
    }
  }

  /** A notification delivered twice leaves the same figures as one. */
  lemma DuplicateNotificationChangesNothing(held: Totals, answers: seq<Fetch<Donation>>, read: Fetch<Donation>)
    ensures Replay(held, answers + [read, read]) == Replay(held, answers + [read])
  {
    var once := answers + [read];
    var twice := answers + [read, read];
    assert twice[..|twice| - 1] == once;
    assert once[..|once| - 1] == answers;
  }

  /** The bar width: `Math.min((raised / target) * 100, 100)`. */
  function Progress(raised: int): (p: real)
    ensures p <= 100.0
    ensures raised >= 0 ==> p >= 0.0
    ensures raised >= Target ==> p == 100.0
    ensures p * Target as real == 100.0 * raised as real || p == 100.0
  {
    Percentage(raised, Target)
  }

  /** With non-negative amounts, the bar shown after any read lies in [0, 100]. */
  lemma GeneralProgressInRange(table: seq<Donation>)
    requires forall d :: d in table ==> d.amount >= 0
    ensures 0.0 <= Progress(GeneralTotals(table).raised) <= 100.0
  {
    var rows := OfType(table, GeneralType);
    SumAmountsNonNegative(rows);
  }

  class Widget {
    var raised: int
    var donors: nat

    constructor ()
      ensures raised == 0 && donors == 0
    {
      raised, donors := 0, 0;
    }

    /** `fetchDonationStats`, run at mount and on every notification: a
        successful read sets both figures and reports exactly them, with the
        target, to `onDataLoad`; a failed one changes and reports nothing. */
    method FetchDonationStats(read: Fetch<Donation>, hasOnDataLoad: bool) returns (report: Option<Report>)
      modifies this
      ensures Totals(raised, donors) == AfterFetch(Totals(old(raised), old(donors)), read)
      ensures report.Some? <==> read.Rows? && hasOnDataLoad
      ensures report.Some? ==> report.value == Report(raised, Target, donors)
    {
      report := None;
      if read.Rows? {
        var rows := OfType(read.rows, GeneralType);
        var total := SumAmounts(rows);
        raised := total;
        donors := |rows|;
        if hasOnDataLoad {
          report := Some(Report(total, Target, |rows|));
        }
      }
    }
  }
}
