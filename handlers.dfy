/**
 * The worker's handlers: the Stripe event-type table filled by the
 * `stripe_event_processor` decorator, `process_stripe_event`'s lookup in it,
 * and the Slack message each handler sends.
 */
module Handlers {
  import opened Wrappers
  import opened SubscriptionReport
  import opened ReportAttachment
  import opened Customers

  /** A message for `send_slack_message`: optional text and a list of attachments. */
  datatype Message = Message(text: Option<string>, attachments: seq<seq<Field>>)

  /** The five decorated `process_*` methods. */
  datatype Processor =
    | SubscriptionCreated
    | SubscriptionDeleted
    | SubscriptionUpdated
    | InvoicePaymentFailed
    | ChargeDisputeCreated

  /** The event type each processor is registered under (the decorator's argument). */
  function EventType(p: Processor): string {
    match p
    case SubscriptionCreated => "customer.subscription.created"
    case SubscriptionDeleted => "customer.subscription.deleted"
    case SubscriptionUpdated => "customer.subscription.updated"
    case InvoicePaymentFailed => "invoice.payment_failed"
    case ChargeDisputeCreated => "charge.dispute.created"
  }

  /** The table as it stands once the worker class has been defined. */
  function StripeProcessors(): map<string, Processor> {
    map[
      "customer.subscription.created" := SubscriptionCreated,
      "customer.subscription.deleted" := SubscriptionDeleted,
      "customer.subscription.updated" := SubscriptionUpdated,
      "invoice.payment_failed" := InvoicePaymentFailed,
      "charge.dispute.created" := ChargeDisputeCreated]
  }

  /** The table holds five types, and every processor is reachable under its own type and no other. */
  lemma StripeProcessorsTable()
    ensures StripeProcessors().Keys == {
      "customer.subscription.created", "customer.subscription.deleted", "customer.subscription.updated",
      "invoice.payment_failed", "charge.dispute.created"}
    ensures |StripeProcessors()| == 5
    ensures forall p: Processor :: EventType(p) in StripeProcessors() && StripeProcessors()[EventType(p)] == p
    ensures forall t :: t in StripeProcessors() ==> EventType(StripeProcessors()[t]) == t
  {
  }

  /** The module-level `stripe_event_processors` dict. */
  class ProcessorRegistry {
    var processors: map<string, Processor>

    constructor ()
      ensures processors == map[]
    {
      processors := map[];
    }

    /** What `stripe_event_processor(eventType)` does to the function it decorates. */
    method Register(eventType: string, p: Processor)
      modifies this
      ensures processors == old(processors)[eventType := p]
    {
      processors := processors[eventType := p];
    }

    /** The lookup of `process_stripe_event`. */
    function Lookup(eventType: string): (r: Option<Processor>)
      reads this
      ensures r.None? <==> eventType !in processors
      ensures r.Some? ==> eventType in processors && processors[eventType] == r.value
    {
      if eventType in processors then Some(processors[eventType]) else None
    }
  }

  /** The decorations of the worker class, applied in source order to a fresh dict. */
  method DefineProcessors() returns (registry: ProcessorRegistry)
    ensures fresh(registry)
    ensures registry.processors == StripeProcessors()
  {
    registry := new ProcessorRegistry();
    registry.Register("customer.subscription.created", SubscriptionCreated);
    registry.Register("customer.subscription.deleted", SubscriptionDeleted);
    registry.Register("customer.subscription.updated", SubscriptionUpdated);
    registry.Register("invoice.payment_failed", InvoicePaymentFailed);
    registry.Register("charge.dispute.created", ChargeDisputeCreated);
  }

  /** With the worker's table, an event invokes the processor of its type, or none for any other type. */
  lemma DispatchByType(registry: ProcessorRegistry, eventType: string)
    requires registry.processors == StripeProcessors()
    ensures registry.Lookup(eventType).None? <==> forall p: Processor :: EventType(p) != eventType
    ensures forall p: Processor :: EventType(p) == eventType ==> registry.Lookup(eventType) == Some(p)
  {
    StripeProcessorsTable();
  }

  /** A Stripe event after `json.loads`: its type and `data.object.customer`. */
  datatype StripeEvent = StripeEvent(eventType: string, customer: string)

  /** The processors that attach a fresh report to their message. */
  predicate NeedsReport(p: Processor) {
    p == SubscriptionCreated || p == SubscriptionDeleted || p == SubscriptionUpdated
  }

  const DisputeText: string := ":beaker: A charge has been disputed :alert2:"

  /** The text a processor sends, given the customer summary. */
  function ProcessorText(p: Processor, summary: string): string {
    match p
    case SubscriptionCreated => "New member: " + summary
    case SubscriptionDeleted => summary + "'s subscription has been cancelled."
    case SubscriptionUpdated => summary + "'s subscription has been updated."
    case InvoicePaymentFailed => summary + "'s payment failed :alert:"
    case ChargeDisputeCreated => DisputeText
  }

  /**
   * The message a processor sends for an event, given the customer lookup
   * and the ledger, or the error that stops it from sending anything.
   */
  function Notification(p: Processor, event: StripeEvent, lookup: CustomerLookup,
                        subscriptions: seq<Subscription>): (r: Result<Message, ReportError>)
    ensures r.Err? <==> NeedsReport(p) && Aggregate(subscriptions).Err?
    ensures r.Err? ==> r.error == Aggregate(subscriptions).error
    ensures r.Ok? ==> r.value.text.Some?
    ensures r.Ok? ==> |r.value.attachments| == (if NeedsReport(p) then 1 else 0)
    ensures r.Ok? && NeedsReport(p) ==> r.value.attachments[0] == ReportFields(Aggregate(subscriptions).value)
    ensures p == SubscriptionCreated && r.Ok? ==>
      r.value.text == Some("New member: " + SummarizeCustomer(event.customer, lookup))
    ensures p == SubscriptionDeleted && r.Ok? ==>
      r.value.text == Some(SummarizeCustomer(event.customer, lookup) + "'s subscription has been cancelled.")
    ensures p == SubscriptionUpdated && r.Ok? ==>
      r.value.text == Some(SummarizeCustomer(event.customer, lookup) + "'s subscription has been updated.")
    ensures p == InvoicePaymentFailed ==>
      r == Ok(Message(Some(SummarizeCustomer(event.customer, lookup) + "'s payment failed :alert:"), []))
    ensures p == ChargeDisputeCreated ==> r == Ok(Message(Some(DisputeText), []))
  {
    var text := ProcessorText(p, SummarizeCustomer(event.customer, lookup));
    if NeedsReport(p) then
      match AttachmentFor(subscriptions)
      case Err(e) => Err(e)
      case Ok(fields) => Ok(Message(Some(text), [fields]))
    else
      Ok(Message(Some(text), []))
  }

  /** Runs one processor: builds its text and, where it needs one, the report attachment. */
  method RunProcessor(p: Processor, event: StripeEvent, lookup: CustomerLookup,
                      subscriptions: seq<Subscription>) returns (r: Result<Message, ReportError>)
    ensures r == Notification(p, event, lookup, subscriptions)
  {
    var text := ProcessorText(p, SummarizeCustomer(event.customer, lookup));
    if !NeedsReport(p) {
      return Ok(Message(Some(text), []));
    }
    var attachment := CreateReportAttachment(subscriptions);
    if attachment.Err? {
      return Err(attachment.error);
    }
    r := Ok(Message(Some(text), [attachment.value]));
  }

  /** `process_stripe_event`: None when the event's type has no processor, otherwise that processor's message. */
  method ProcessStripeEvent(registry: ProcessorRegistry, event: StripeEvent, lookup: CustomerLookup,
                            subscriptions: seq<Subscription>) returns (r: Result<Option<Message>, ReportError>)
    ensures event.eventType !in registry.processors ==> r == Ok(None)
    ensures event.eventType in registry.processors ==>
      match Notification(registry.processors[event.eventType], event, lookup, subscriptions)
      case Err(e) => r == Err(e)
      case Ok(m) => r == Ok(Some(m))
  {
    var processor := registry.Lookup(event.eventType);
    if processor.None? {
      return Ok(None);
    }
    var message := RunProcessor(processor.value, event, lookup, subscriptions);
    if message.Err? {
      return Err(message.error);
    }
    r := Ok(Some(message.value));
  }

  const InvitesDisabled: string := "Automatic slack invites for new members are disabled right now."

  /** The reason a call of `send_slack_message(self, **params)` raises TypeError. */
  datatype SlackCallError = PositionalArgument

  /** `send_slack_message`: it accepts keyword arguments only, so any positional argument raises. */
  function SendSlackMessage(positional: seq<string>, text: Option<string>, attachments: seq<seq<Field>>)
    : (r: Result<Message, SlackCallError>)
    ensures r.Ok? <==> positional == []
    ensures r.Ok? ==> r.value.text == text && r.value.attachments == attachments
  {
    if positional == [] then Ok(Message(text, attachments)) else Err(PositionalArgument)
  }

  /** The new-member text of `trigger`: the address, ". " and the fixed remark (the invite is switched off). */
  function TriggerText(address: string): (t: string)
    ensures "New member: " + address <= t
    ensures t[|"New member: "| + |address|..] == ". " + InvitesDisabled
  {
    "New member: " + address + ". " + InvitesDisabled
  }

  /** `trigger` as the code writes it: the text is passed positionally. */
  function TriggerAsWritten(address: string): Result<Message, SlackCallError> {
    SendSlackMessage([TriggerText(address)], None, [])
  }

  /** As written, `trigger` raises TypeError for every address and never sends a message. */
  lemma TriggerNeverSends(address: string)
    ensures TriggerAsWritten(address) == Err(PositionalArgument)
    ensures forall m :: TriggerAsWritten(address) != Ok(m)
  {
  }

  /** `trigger` as evidently intended: the text passed as `text=`, which is sent with no attachment. */
  function TriggerNotice(address: string): (r: Result<Message, SlackCallError>)
    ensures r == Ok(Message(Some(TriggerText(address)), []))
  {
    SendSlackMessage([], Some(TriggerText(address)), [])
  }

  /** `report`: a message with only the report attachment. */
  method ReportMessage(subscriptions: seq<Subscription>) returns (r: Result<Message, ReportError>)
    ensures r.Err? <==> Aggregate(subscriptions).Err?
    ensures r.Err? ==> r.error == Aggregate(subscriptions).error
    ensures r.Ok? ==> r.value == Message(None, [ReportFields(Aggregate(subscriptions).value)])
  {
    var attachment := CreateReportAttachment(subscriptions);
    if attachment.Err? {
      return Err(attachment.error);
    }
    r := Ok(Message(None, [attachment.value]));
  }
}
