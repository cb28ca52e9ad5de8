/** The reductions the components run over fetched rows, and the clamped
    percentage they display. */
module Aggregates {
  import opened Records

  /** `rows.reduce((sum, d) => sum + d.amount, 0)`, a fold from the left. */
  function SumAmounts(ds: seq<Donation>): (total: int)
  {
    if ds == [] then 0 else SumAmounts(ds[..|ds| - 1]) + ds[|ds| - 1].amount
  }

  /** `rows.reduce((sum, m) => sum + m.monthly_amount, 0)`. */
  function SumMonthly(ms: seq<Member>): (total: int)
  {
    if ms == [] then 0 else SumMonthly(ms[..|ms| - 1]) + ms[|ms| - 1].monthlyAmount
  }

  /** The rows a query with `.eq("type", t)` returns, in table order. */
  function OfType(ds: seq<Donation>, t: string): (r: seq<Donation>)
    ensures |r| <= |ds|
    ensures forall d :: d in r ==> d in ds && d.donationType == t
    ensures forall d :: d in ds && d.donationType == t ==> d in r
    ensures forall d :: multiset(r)[d] == if d.donationType == t then multiset(ds)[d] else 0
  {
    if ds == [] then []
    else
      var rest := OfType(ds[1..], t);
      assert ds == [ds[0]] + ds[1..];
      if ds[0].donationType == t then
        assert multiset([ds[0]] + rest) == multiset{ds[0]} + multiset(rest);
        [ds[0]] + rest
      else rest
  }

  /** `members.filter(m => m.payment_status === s).length`. */
  function CountStatus(ms: seq<Member>, s: string): (n: nat)
    ensures n <= |ms|
  {
    if ms == [] then 0
    else (if ms[0].paymentStatus == s then 1 else 0) + CountStatus(ms[1..], s)
  }

  /** The sum of a concatenation is the sum of the parts: folding order does
      not matter for the totals. */
  lemma {:induction false} SumAmountsAppend(a: seq<Donation>, b: seq<Donation>)
    ensures SumAmounts(a + b) == SumAmounts(a) + SumAmounts(b)
    decreases |b|
  {
    if b == [] {
      assert a + b == a;
    } else {
      assert (a + b)[..|a + b| - 1] == a + b[..|b| - 1];
      SumAmountsAppend(a, b[..|b| - 1]);
    }
  }

  lemma {:induction false} SumAmountsNonNegative(ds: seq<Donation>)
    requires forall d :: d in ds ==> d.amount >= 0
    ensures SumAmounts(ds) >= 0
  {
    if ds != [] {
      assert ds[|ds| - 1] in ds;
      assert forall d :: d in ds[..|ds| - 1] ==> d in ds;
      SumAmountsNonNegative(ds[..|ds| - 1]);
    }
  }

  /** With non-negative amounts, the total over the rows of one type never
      exceeds the total over all rows. */
  lemma {:induction false} SumOfTypeAtMostSum(ds: seq<Donation>, t: string)
    requires forall d :: d in ds ==> d.amount >= 0
    ensures SumAmounts(OfType(ds, t)) <= SumAmounts(ds)
  {
    if ds != [] {
      var rest := ds[1..];
      assert ds == [ds[0]] + rest;
      assert forall d :: d in rest ==> d in ds;
      SumOfTypeAtMostSum(rest, t);
      SumAmountsAppend([ds[0]], rest);
      if ds[0].donationType == t {
        SumAmountsAppend([ds[0]], OfType(rest, t));
      }
    }
  }

  /** A member counts as paid or as unpaid, never as both. */
  lemma {:induction false} PaidPlusUnpaidAtMostMembers(ms: seq<Member>)
    ensures CountStatus(ms, Paid) + CountStatus(ms, Unpaid) <= |ms|
  {
    if ms != [] {
      PaidPlusUnpaidAtMostMembers(ms[1..]);
    }
  }

  /** `Math.min((raised / target) * 100, 100)` in exact arithmetic. */
  function Percentage(raised: int, target: int): (p: real)
    requires target > 0
    ensures p <= 100.0
    ensures raised >= 0 ==> p >= 0.0
    ensures raised < target ==> p < 100.0
    ensures raised >= target ==> p == 100.0
    ensures p * target as real == 100.0 * raised as real || p == 100.0
  {
    var ratio := (raised as real / target as real) * 100.0;
    assert ratio * target as real == 100.0 * raised as real by {
      assert (raised as real / target as real) * target as real == raised as real;
    }
    if ratio < 100.0 then ratio else 100.0
  }
}
