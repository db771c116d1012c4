/**
 * The subscription report of the worker (`create_report`): a fold of the
 * ledger's subscriptions into five accumulators.  Monetary sums are exact
 * reals in minor units (cents), before the final division by 100 and rounding.
 */
module SubscriptionReport {
  import opened Wrappers

  datatype Plan = Plan(interval: string, intervalCount: int, amount: int)
  datatype Subscription = Subscription(status: string, plan: Plan)

  /** Why a report cannot be produced. */
  datatype ReportError =
    | UnsupportedInterval   // `raise RuntimeError('wtf')`
    | ZeroIntervalCount     // the division by `interval_count` raises ZeroDivisionError

  /** The five accumulators of `create_report`, in minor units. */
  datatype Totals = Totals(
    count: nat,
    perMonthAverage: real,
    perMonthAverageBeforeFees: real,
    perMonthBaseline: real,
    pastDueCount: nat)

  const Empty := Totals(0, 0.0, 0.0, 0.0, 0)

  /** Stripe's percentage fee and fixed fee as the code writes them. */
  const FeeRate: real := 0.029
  const FixedFee: real := 0.3

  /** Records that contribute revenue; all others count as past due. */
  predicate IsCurrent(s: Subscription) {
    s.status == "active" || s.status == "trialing"
  }

  /** A current record the fold cannot handle. */
  predicate Unsupported(s: Subscription) {
    IsCurrent(s) && (s.plan.interval != "month" || s.plan.intervalCount == 0)
  }

  function AfterFees(amount: int): real {
    amount as real * (1.0 - FeeRate) - FixedFee
  }

  /** The exception folding `s` raises, checked in the order the code checks. */
  function Fault(s: Subscription): ReportError
    requires Unsupported(s)
  {
    if s.plan.interval != "month" then UnsupportedInterval else ZeroIntervalCount
  }

  /** One iteration of the loop body of `create_report`. */
  function Step(t: Totals, s: Subscription): Result<Totals, ReportError> {
    if Unsupported(s) then Err(Fault(s))
    else if IsCurrent(s) then
      var net := AfterFees(s.plan.amount);
      var n := s.plan.intervalCount as real;
      Ok(Totals(
        t.count + 1,
        t.perMonthAverage + net / n,
        t.perMonthAverageBeforeFees + s.plan.amount as real / n,
        if s.plan.intervalCount == 1 then t.perMonthBaseline + net else t.perMonthBaseline,
        t.pastDueCount))
    else
      Ok(t.(count := t.count + 1, pastDueCount := t.pastDueCount + 1))
  }

  /** The report of the records `s`, folded in order; the first fault aborts. */
  function Aggregate(s: seq<Subscription>): Result<Totals, ReportError>
    decreases |s|
  {
    if s == [] then Ok(Empty) else Then(Aggregate(s[..|s| - 1]), s[|s| - 1])
  }

  /** The loop body applied after a partial report; an earlier error propagates. */
  function Then(r: Result<Totals, ReportError>, x: Subscription): Result<Totals, ReportError> {
    match r
    case Err(e) => Err(e)
    case Ok(t) => Step(t, x)
  }

  function Add(a: Totals, b: Totals): Totals {
    Totals(
      a.count + b.count,
      a.perMonthAverage + b.perMonthAverage,
      a.perMonthAverageBeforeFees + b.perMonthAverageBeforeFees,
      a.perMonthBaseline + b.perMonthBaseline,
      a.pastDueCount + b.pastDueCount)
  }

  /** The report of two consecutive runs of records: the first error wins. */
  function Combine(r1: Result<Totals, ReportError>, r2: Result<Totals, ReportError>): Result<Totals, ReportError> {
    match r1
    case Err(e) => Err(e)
    case Ok(a) =>
      match r2
      case Err(e) => Err(e)
      case Ok(b) => Ok(Add(a, b))
  }

  /** Indices of the records counted as past due. */
  function PastDueIndices(s: seq<Subscription>): set<int> {
    set i | 0 <= i < |s| && !IsCurrent(s[i])
  }

  /** `create_report`, up to the final division by 100 and rounding. */
  method CreateReport(subscriptions: seq<Subscription>) returns (r: Result<Totals, ReportError>)
    ensures r == Aggregate(subscriptions)
  {
    var count: nat := 0;
    var perMonthAverage := 0.0;
    var perMonthAverageBeforeFees := 0.0;
    var perMonthBaseline := 0.0;
    var pastDueCount: nat := 0;

    var i := 0;
    while i < |subscriptions|
      invariant 0 <= i <= |subscriptions|
      invariant Aggregate(subscriptions[..i])
        == Ok(Totals(count, perMonthAverage, perMonthAverageBeforeFees, perMonthBaseline, pastDueCount))
    {
      var s := subscriptions[i];
      assert subscriptions[..i + 1][..i] == subscriptions[..i];
      count := count + 1;
      if s.status == "active" || s.status == "trialing" {
        if s.plan.interval != "month" {
          ErrorIsFinal(subscriptions[..i + 1], subscriptions[i + 1..]);
          assert subscriptions[..i + 1] + subscriptions[i + 1..] == subscriptions;
          return Err(UnsupportedInterval);
        }
        if s.plan.intervalCount == 0 {
          ErrorIsFinal(subscriptions[..i + 1], subscriptions[i + 1..]);
          assert subscriptions[..i + 1] + subscriptions[i + 1..] == subscriptions;
          return Err(ZeroIntervalCount);
        }
        var amountAfterTransactionFees := s.plan.amount as real * (1.0 - 0.029) - 0.3;
        perMonthAverage := perMonthAverage + amountAfterTransactionFees / s.plan.intervalCount as real;
        perMonthAverageBeforeFees := perMonthAverageBeforeFees + s.plan.amount as real / s.plan.intervalCount as real;
        if s.plan.intervalCount == 1 {
          perMonthBaseline := perMonthBaseline + amountAfterTransactionFees;
        }
      } else {
        pastDueCount := pastDueCount + 1;
      }
      i := i + 1;
    }
    assert subscriptions[..i] == subscriptions;
    r := Ok(Totals(count, perMonthAverage, perMonthAverageBeforeFees, perMonthBaseline, pastDueCount));
  }

  // ---------------------------------------------------------------------
  // Properties of the fold

  lemma ThenCombine(r1: Result<Totals, ReportError>, r2: Result<Totals, ReportError>, x: Subscription)
    ensures Then(Combine(r1, r2), x) == Combine(r1, Then(r2, x))
  {
  }

  lemma AggregateSnoc(s: seq<Subscription>, x: Subscription)
    ensures Aggregate(s + [x]) == Then(Aggregate(s), x)
  {
    assert (s + [x])[..|s|] == s;
  }

  /** Folding two runs of records one after the other combines their reports. */
  lemma {:induction false} AggregateAppend(s: seq<Subscription>, u: seq<Subscription>)
    ensures Aggregate(s + u) == Combine(Aggregate(s), Aggregate(u))
    decreases |u|
  {
    if u == [] {
      assert s + u == s;
      match Aggregate(s)
      case Err(_) =>
      case Ok(a) => assert Add(a, Empty) == a;
    } else {
      var u', x := u[..|u| - 1], u[|u| - 1];
      assert s + u == (s + u') + [x];
      assert u == u' + [x];
      calc {
        Aggregate(s + u);
        { AggregateSnoc(s + u', x); }
        Then(Aggregate(s + u'), x);
        { AggregateAppend(s, u'); }
        Then(Combine(Aggregate(s), Aggregate(u')), x);
        { ThenCombine(Aggregate(s), Aggregate(u'), x); }
        Combine(Aggregate(s), Then(Aggregate(u'), x));
        { AggregateSnoc(u', x); }
        Combine(Aggregate(s), Aggregate(u));
      }
    }
  }

  /** Once a prefix has failed, no further record changes the outcome. */
  lemma ErrorIsFinal(s: seq<Subscription>, u: seq<Subscription>)
    requires Aggregate(s).Err?
    ensures Aggregate(s + u) == Aggregate(s)
  {
    AggregateAppend(s, u);
  }

  /** The report does not depend on which of two runs of records comes first. */
  lemma OrderIndependent(s: seq<Subscription>, u: seq<Subscription>)
    ensures Aggregate(s + u).Ok? <==> Aggregate(u + s).Ok?
    ensures Aggregate(s + u).Ok? ==> Aggregate(s + u) == Aggregate(u + s)
  {
    AggregateAppend(s, u);
    AggregateAppend(u, s);
  }

  /** The report fails exactly when some current record is not monthly or has a zero interval count. */
  lemma {:induction false} FailsIffUnsupported(s: seq<Subscription>)
    ensures Aggregate(s).Err? <==> exists i :: 0 <= i < |s| && Unsupported(s[i])
    decreases |s|
  {
    if s != [] {
      var s', x := s[..|s| - 1], s[|s| - 1];
      FailsIffUnsupported(s');
      if exists i :: 0 <= i < |s'| && Unsupported(s'[i]) {
        var i :| 0 <= i < |s'| && Unsupported(s'[i]);
        assert s[i] == s'[i];
      }
      if exists i :: 0 <= i < |s| && Unsupported(s[i]) {
        var i :| 0 <= i < |s| && Unsupported(s[i]);
        if i < |s'| { assert s'[i] == s[i]; }
      }
    }
  }

  /** The error reported is the one the first unsupported record raises. */
  lemma FirstFaultRaised(s: seq<Subscription>, i: int)
    requires 0 <= i < |s| && Unsupported(s[i])
    requires forall j :: 0 <= j < i ==> !Unsupported(s[j])
    ensures Aggregate(s) == Err(Fault(s[i]))
  {
    NoFaultPrefix(s, i);
    PrefixStep(s, i);
    ErrorAtPrefix(s, i + 1);
  }

  lemma PrefixStep(s: seq<Subscription>, i: int)
    requires 0 <= i < |s|
    ensures Aggregate(s[..i + 1]) == Then(Aggregate(s[..i]), s[i])
  {
    assert s[..i + 1] == s[..i] + [s[i]];
    AggregateSnoc(s[..i], s[i]);
  }

  lemma ErrorAtPrefix(s: seq<Subscription>, k: int)
    requires 0 <= k <= |s| && Aggregate(s[..k]).Err?
    ensures Aggregate(s) == Aggregate(s[..k])
  {
    ErrorIsFinal(s[..k], s[k..]);
    assert s[..k] + s[k..] == s;
  }

  lemma NoFaultPrefix(s: seq<Subscription>, i: int)
    requires 0 <= i <= |s|
    requires forall j :: 0 <= j < i ==> !Unsupported(s[j])
    ensures Aggregate(s[..i]).Ok?
  {
    var p := s[..i];
    FailsIffUnsupported(p);
    forall j | 0 <= j < |p| ensures !Unsupported(p[j]) { assert p[j] == s[j]; }
  }

  /** The counts of a report: every record is counted, the non-current ones also as past due. */
  lemma {:induction false} CountsMatch(s: seq<Subscription>)
    requires Aggregate(s).Ok?
    ensures Aggregate(s).value.count == |s|
    ensures Aggregate(s).value.pastDueCount == |PastDueIndices(s)|
    ensures Aggregate(s).value.pastDueCount <= Aggregate(s).value.count
    decreases |s|
  {
    if s != [] {
      var s', x := s[..|s| - 1], s[|s| - 1];
      CountsMatch(s');
      var before := PastDueIndices(s');
      assert |s'| !in before;
      if IsCurrent(x) {
        assert PastDueIndices(s) == before;
      } else {
        assert PastDueIndices(s) == before + {|s'|};
      }
    }
  }

  /** Records that are not current add to the counts and leave every monetary sum alone. */
  lemma {:induction false} PastDueLeavesRevenue(s: seq<Subscription>, u: seq<Subscription>)
    requires Aggregate(s).Ok?
    requires forall i :: 0 <= i < |u| ==> !IsCurrent(u[i])
    ensures Aggregate(s + u) == Ok(Aggregate(s).value.(
      count := Aggregate(s).value.count + |u|,
      pastDueCount := Aggregate(s).value.pastDueCount + |u|))
  {
    AllPastDue(u);
    AggregateAppend(s, u);
  }

  lemma {:induction false} AllPastDue(u: seq<Subscription>)
    requires forall i :: 0 <= i < |u| ==> !IsCurrent(u[i])
    ensures Aggregate(u) == Ok(Totals(|u|, 0.0, 0.0, 0.0, |u|))
    decreases |u|
  {
    if u != [] {
      AllPastDue(u[..|u| - 1]);
    }
  }

  /** A current monthly record billed every month adds its net amount to both the average and the baseline. */
  lemma MonthlyAddsToBaseline(s: seq<Subscription>, x: Subscription)
    requires Aggregate(s).Ok?
    requires IsCurrent(x) && x.plan.interval == "month" && x.plan.intervalCount == 1
    ensures Aggregate(s + [x]).Ok?
    ensures var t, t' := Aggregate(s).value, Aggregate(s + [x]).value;
      && t'.count == t.count + 1 && t'.pastDueCount == t.pastDueCount
      && t'.perMonthAverage - t.perMonthAverage == AfterFees(x.plan.amount)
      && t'.perMonthBaseline - t.perMonthBaseline == AfterFees(x.plan.amount)
      && t'.perMonthAverageBeforeFees - t.perMonthAverageBeforeFees == x.plan.amount as real
  {
    assert (s + [x])[..|s|] == s;
  }

  /** A current record with any other non-zero interval count adds to the averages only, per month, and not to the baseline. */
  lemma MultiMonthSkipsBaseline(s: seq<Subscription>, x: Subscription)
    requires Aggregate(s).Ok?
    requires IsCurrent(x) && x.plan.interval == "month" && x.plan.intervalCount != 0 && x.plan.intervalCount != 1
    ensures Aggregate(s + [x]).Ok?
    ensures var t, t' := Aggregate(s).value, Aggregate(s + [x]).value;
      && t'.count == t.count + 1 && t'.pastDueCount == t.pastDueCount
      && t'.perMonthBaseline == t.perMonthBaseline
      && t'.perMonthAverage - t.perMonthAverage == AfterFees(x.plan.amount) / x.plan.intervalCount as real
      && t'.perMonthAverageBeforeFees - t.perMonthAverageBeforeFees == x.plan.amount as real / x.plan.intervalCount as real
  {
    assert (s + [x])[..|s|] == s;
  }
}
