/**
 * The report attachment (`create_report_attachment`): the report as a list of
 * Slack attachment fields.  Values are kept structured; their rendering as
 * `str(...)` or `'$%.2f'` text is not modelled.
 */
module ReportAttachment {
  import opened Wrappers
  import opened SubscriptionReport

  datatype FieldValue = Count(n: nat) | Money(minorUnits: real)

  /** A field dict; `short == false` stands for a dict without a 'short' key. */
  datatype Field = Field(title: string, value: FieldValue, short: bool)

  const PaidTitle: string := "Paid memberships"
  const BeforeFeesTitle: string := "Monthly average before Stripe fees"
  const AfterFeesTitle: string := "Monthly average after Stripe fees"
  const BaselineTitle: string := "Monthly baseline after Stripe fees"
  const PastDueTitle: string := "Past due memberships"

  /** The titles every attachment starts with, in order. */
  const FixedTitles: seq<string> := [PaidTitle, BeforeFeesTitle, AfterFeesTitle, BaselineTitle]

  /** The fields of the attachment for report `t`. */
  function ReportFields(t: Totals): seq<Field> {
    var fixed := [
      Field(PaidTitle, Count(t.count), false),
      Field(BeforeFeesTitle, Money(t.perMonthAverageBeforeFees), true),
      Field(AfterFeesTitle, Money(t.perMonthAverage), true),
      Field(BaselineTitle, Money(t.perMonthBaseline), false)];
    if t.pastDueCount > 0 then fixed + [Field(PastDueTitle, Count(t.pastDueCount), false)] else fixed
  }

  /** Recovers a report from its fields; None for a list no report renders to. */
  function ReadReport(fields: seq<Field>): Option<Totals> {
    if |fields| != 4 && |fields| != 5 then None
    else if exists k :: 0 <= k < 4 && fields[k].title != FixedTitles[k] then None
    else if !(fields[0].value.Count? && fields[1].value.Money? && fields[2].value.Money? && fields[3].value.Money?) then None
    else if |fields| == 4 then
      Some(Totals(fields[0].value.n, fields[2].value.minorUnits, fields[1].value.minorUnits, fields[3].value.minorUnits, 0))
    else if fields[4].title == PastDueTitle && fields[4].value.Count? && fields[4].value.n > 0 then
      Some(Totals(fields[0].value.n, fields[2].value.minorUnits, fields[1].value.minorUnits, fields[3].value.minorUnits, fields[4].value.n))
    else None
  }

  /** The attachment derived from the ledger, or the error `create_report` raised. */
  function AttachmentFor(subscriptions: seq<Subscription>): Result<seq<Field>, ReportError> {
    match Aggregate(subscriptions)
    case Err(e) => Err(e)
    case Ok(t) => Ok(ReportFields(t))
  }

  /** Nothing of a report is lost in its attachment. */
  lemma ReadReportRoundTrip(t: Totals)
    ensures ReadReport(ReportFields(t)) == Some(t)
  {
  }

  /** `create_report_attachment`: the report's fields, with the past-due field only when there are past-due records. */
  method CreateReportAttachment(subscriptions: seq<Subscription>) returns (r: Result<seq<Field>, ReportError>)
    ensures r == AttachmentFor(subscriptions)
    ensures r.Err? <==> Aggregate(subscriptions).Err?
    ensures r.Ok? ==> var t := Aggregate(subscriptions).value;
      && |r.value| == (if t.pastDueCount == 0 then 4 else 5)
      && (forall k :: 0 <= k < 4 ==> r.value[k].title == FixedTitles[k])
      && (t.pastDueCount > 0 ==> r.value[4] == Field(PastDueTitle, Count(t.pastDueCount), false))
      && r.value[0].value == Count(t.count)
      && ReadReport(r.value) == Some(t)
  {
    var report := CreateReport(subscriptions);
    if report.Err? {
      return Err(report.error);
    }
    var t := report.value;
    var fields := [
      Field(PaidTitle, Count(t.count), false),
      Field(BeforeFeesTitle, Money(t.perMonthAverageBeforeFees), true),
      Field(AfterFeesTitle, Money(t.perMonthAverage), true),
      Field(BaselineTitle, Money(t.perMonthBaseline), false)];
    if t.pastDueCount > 0 {
      fields := fields + [Field(PastDueTitle, Count(t.pastDueCount), false)];
    }
    ReadReportRoundTrip(t);
    r := Ok(fields);
  }
}
