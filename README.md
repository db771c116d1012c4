# Synchrotron worker — a Dafny model

Synchrotron's worker (`synchrotron/work.py`) listens on a Redis pub/sub bus
and posts to Slack. This project models the logic of that worker with Slack,
Stripe and Redis replaced by inputs:

- **Subscription report** (`SubscriptionReport`). `create_report` folds the
  Stripe subscriptions into a total count, a past-due count and three
  monetary sums. `Aggregate` is the fold as a function, defined one record at
  a time. `CreateReport` is the loop of the code, proved equal to it. The
  lemmas prove the following. Folding two runs of records combines their
  reports, so order changes neither whether the report succeeds nor its
  totals; which error is raised can depend on it. The fold fails exactly when a current
  (`active`/`trialing`) record is not monthly or has an interval count of 0,
  and the code's first such record decides the error. The counts match the records. Past-due records
  leave the money alone. A current monthly record with an interval count
  of 1 adds to the baseline; one with any other non-zero count (negative ones
  included) adds to the averages only.
- **Report attachment** (`ReportAttachment`). `create_report_attachment`
  turns the report into four fields, plus a fifth when there are past-due
  records. `ReadReport` reads a report back from its fields, and the
  round-trip lemma shows the fields lose nothing.
- **Event routing** (`Channels`, `Handlers`). `run` routes each bus message
  by its channel. `process_stripe_event` looks the event type up in the
  table that the `stripe_event_processor` decorator fills. Both are
  modelled, and so is the Slack message each Stripe processor and `report`
  sends. `trigger` as written never sends one (see "## Findings").
- **Lookups** (`Customers`). `summarize_customer` and `invite_to_slack`
  classify the answers of Stripe and Slack. Those answers are given as
  inputs.
- **Retry** (`Retry`). `retry` calls an operation at most `retries` times.
  It returns the first success or re-raises the last failure. The operation
  is given as the outcome of each successive call.

Monetary sums are exact `real`s in minor units. They stop before the code's
final `round(x / 100, 2)` (work.py:92-94).

The fee is the code's: `amount * (1 - 0.029) - 0.3` (work.py:82). `0.3` is
in the same minor units as `amount`, so it subtracts 0.3 cents; the model
keeps the code's constant.

The code also raises ZeroDivisionError when a current monthly record has
`interval_count == 0`. The model keeps this as the error
`ZeroIntervalCount`.

## Model

| member | source | states |
|---|---|---|
| SubscriptionReport.CreateReport | synchrotron/work.py:70-96 | the loop over the subscriptions computes exactly the fold `Aggregate`, including aborting on the first unsupported record |
| SubscriptionReport.AggregateAppend | synchrotron/work.py:77-88 | folding `s + u` gives the sums of the reports of `s` and `u`; if either fails, the first error wins |
| SubscriptionReport.ErrorIsFinal | synchrotron/work.py:79-83 | once a prefix has raised, later records do not change the outcome |
| SubscriptionReport.OrderIndependent | synchrotron/work.py:77-88 | swapping two runs of records changes neither whether the report succeeds nor the report itself |
| SubscriptionReport.FailsIffUnsupported | synchrotron/work.py:79-84 | the report fails if and only if some active/trialing record has an interval other than `month` or a zero interval count; past-due records never cause failure |
| SubscriptionReport.FirstFaultRaised | synchrotron/work.py:79-84 | the error raised is the one for the first unsupported record: a non-monthly interval before a zero interval count |
| SubscriptionReport.CountsMatch | synchrotron/work.py:77-88 | `count` is the number of records, `past_due_count` is the number of records whose status is not active/trialing, and `past_due_count <= count` |
| SubscriptionReport.PastDueLeavesRevenue | synchrotron/work.py:79-88 | appending records that are not active/trialing raises both counts by their number and leaves the three sums unchanged |
| SubscriptionReport.AllPastDue | synchrotron/work.py:87-88 | a ledger of past-due records only reports zero in every sum |
| SubscriptionReport.MonthlyAddsToBaseline | synchrotron/work.py:82-86 | a current monthly record with interval count 1 adds the same net amount to the average and to the baseline, and its gross amount to the before-fees average |
| SubscriptionReport.MultiMonthSkipsBaseline | synchrotron/work.py:82-86 | a current monthly record with an interval count other than 0 and 1 (above 1, or negative) adds net and gross amounts per month to the averages and nothing to the baseline |
| ReportAttachment.ReadReportRoundTrip | synchrotron/work.py:101-111 | the report can be read back from its fields unchanged |
| ReportAttachment.CreateReportAttachment | synchrotron/work.py:98-111 | fails exactly when the report fails; otherwise 4 fields with no past-due records and 5 with, the fixed four titles in order, the past-due field last with its count, and the report is recoverable |
| Customers.SummarizeCustomer | synchrotron/work.py:154-161 | the raw id when the lookup is not found; otherwise the description, then " (", the email and ")" |
| Customers.InviteToSlack | synchrotron/work.py:163-172 | successful exactly when the response is ok; already invited / already in team exactly for those two error codes; any other error string is returned unchanged |
| Channels.Route | synchrotron/work.py:51-57 | a message invokes a handler if and only if its channel is trigger, report or stripe_event; that handler's channel is the message's channel and it receives the message's data |
| Channels.RouteRoundTrip | synchrotron/work.py:51-57 | every handler is reached from its own channel with its own data |
| Channels.SyncIsIgnored | synchrotron/work.py:49-57 | `sync` is subscribed to but its messages invoke no handler |
| Channels.Listen | synchrotron/work.py:51-57 | the loop over the delivered messages produces exactly the routed calls, in arrival order |
| Channels.DispatchedAppend | synchrotron/work.py:51-57 | the calls for two consecutive runs of messages are the calls of the first followed by those of the second |
| Channels.UnroutedMessageChangesNothing | synchrotron/work.py:51-57 | removing a message whose channel has no branch leaves the calls unchanged |
| Channels.OneCallPerHandledMessage | synchrotron/work.py:51-57 | each message on a routed channel contributes one call and every other message none, so there are never more calls than messages |
| Handlers.StripeProcessorsTable | synchrotron/work.py:121-152 | the table holds exactly the five decorated event types, and each processor is registered under its own type only |
| Handlers.ProcessorRegistry.constructor | synchrotron/work.py:24 | the table starts empty |
| Handlers.ProcessorRegistry.Register | synchrotron/work.py:27-31 | decorating binds the event type to the processor and changes no other entry |
| Handlers.ProcessorRegistry.Lookup | synchrotron/work.py:118-119 | finds the processor stored for a type, or nothing exactly when the type is not a key |
| Handlers.DefineProcessors | synchrotron/work.py:121-152 | the five decorations leave the table equal to the worker's table |
| Handlers.DispatchByType | synchrotron/work.py:116-119 | with the worker's table, an event of an unknown type invokes no processor, and a registered type invokes exactly its processor |
| Handlers.Notification | synchrotron/work.py:121-152 | subscription created/deleted/updated send text with one report attachment and fail exactly when the report fails; updated notifies unconditionally; deleted, updated and payment failed send the customer summary followed by their own fixed suffix, payment failed with no attachment; a dispute sends fixed text |
| Handlers.RunProcessor | synchrotron/work.py:119-152 | running a processor sends exactly its `Notification` |
| Handlers.ProcessStripeEvent | synchrotron/work.py:116-119 | an unknown type does nothing; a known type sends the registered processor's message or fails with its error |
| Handlers.SendSlackMessage | synchrotron/work.py:174-175 | a call succeeds exactly when it has no positional argument, and then sends the given text and attachments |
| Handlers.TriggerText | synchrotron/work.py:66-68 | the new-member text is "New member: ", the address, ". " and the fixed "invites disabled" remark |
| Handlers.TriggerNeverSends | synchrotron/work.py:68 | as written, `trigger` passes its text positionally and so fails for every address; no message is ever produced |
| Handlers.TriggerNotice | synchrotron/work.py:59-68 | as intended, `trigger` sends the new-member text and no attachment |
| Handlers.ReportMessage | synchrotron/work.py:113-114 | the report message is the report attachment alone; it fails exactly when the report fails, with the report's own error |
| Retry.Retry | synchrotron/work.py:178-192 | with `retries >= 1`: returns the first success; makes at most `retries` calls, all before the last failed; re-raises the last failure after exactly `retries` calls, and only then if all failed; with `retries <= 0` makes no call and returns None |

## Findings

| source | as written | input that shows it | evidently intended | confidence | as-written member | corrected member |
|---|---|---|---|---|---|---|
| synchrotron/work.py:68 | `trigger` passes the new-member text as a positional argument to `send_slack_message`, which takes keyword arguments only (work.py:174), so the call raises TypeError | any `trigger` message, e.g. data `go` | the text passed as `text=` and posted to Slack | not executed | Handlers.TriggerNeverSends | Handlers.TriggerNotice |

## Left out

- Slack, Stripe and Redis I/O is not modelled. This covers `SlackClient`, `send_slack_message`, `stripe.Subscription.list().auto_paging_iter()`, `stripe.Customer.retrieve`, `pubsub`/`subscribe`/`listen` and the environment variables. The ledger is a `seq` of subscriptions; the customer lookup, the Slack invite response and the bus are inputs.
- Stripe errors other than InvalidRequestError during the customer lookup are not modelled. The code lets them propagate.
- `json.loads` of the event payload is not modelled. A Stripe event is given already parsed, as its type and customer id. A malformed payload or a missing key (a KeyError in the code) is not modelled.
- Floating point is not modelled. The sums are exact reals, so they can differ from the code's IEEE doubles. The constants 0.029 and 0.3 are exact. The final `round(x / 100, 2)` and the `'$%.2f'` and `str(...)` rendering of field values are also left out. `Money` holds the unrounded sum in minor units.
- A missing `plan` or a `None` amount (an AttributeError or TypeError in the code) is not modelled. A record always has a plan with an integer amount.
- Customers.InviteToSlack: a failed response without an `error` key makes the code raise KeyError (work.py:167); the model's response always carries an error string.
- `Field.short == false` stands for a field dict without a `short` key.
- `Customers.SummarizeCustomer`: the description and email are strings as `'%s'` renders them; a `None` attribute is the text "None", and the model does not distinguish it from a real "None".
- Retry.Retry: the default `retries=3` (work.py:178) is not modelled; every call passes `retries` explicitly.
- Retry.Retry: `except Exception` (work.py:182) does not catch a `BaseException` such as KeyboardInterrupt, which escapes at once from whichever call raises it, with no retry; the model's `Failed` stands only for an `Exception`, and such escapes are not modelled.
- The `print` diagnostics of `retry` are logging only and are not modelled. `retry`'s operation is the sequence of outcomes of its successive calls.
- Channels.Listen: an exception from a handler ends `run` in the code, and the model does not capture that. Every `trigger` message raises (see "## Findings"), so the code dispatches nothing after the first one, while `Listen` lists the calls for every message. A report error ends the loop the same way. `Listen` only says which handler each message invokes; running one is modelled separately per handler. The bus is infinite; `Listen` covers the finite prefix delivered so far.
- `invite_to_slack` is modelled, but `trigger` does not call it (the call is commented out at work.py:60-65).
- The HTTP front end (`web.py`), the scheduler (`scheduler.py`) and the connection factory (`util.py`) are not part of this model.
