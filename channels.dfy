/**
 * The subscribe loop of `SynchrotronWorker.run`: each bus message is routed
 * by its channel to at most one handler.  The bus is given as the finite
 * sequence of messages `listen()` has delivered so far.
 */
module Channels {
  import opened Wrappers

  datatype BusMessage = BusMessage(channel: string, data: string)

  /** A handler invocation of the loop. */
  datatype Call = Trigger(address: string) | Report | ProcessStripeEvent(data: string)

  /** The channels `run` subscribes to. */
  const Subscribed: seq<string> := ["trigger", "sync", "report", "stripe_event"]

  /** The if-chain of `run`: which handler a message invokes, if any. */
  function Route(m: BusMessage): (r: Option<Call>)
    ensures r.Some? <==> m.channel in {"trigger", "report", "stripe_event"}
    ensures r.Some? ==> ChannelOf(r.value) == m.channel
    ensures r.Some? && !r.value.Report? ==> DataOf(r.value) == m.data
  {
    if m.channel == "trigger" then Some(Trigger(m.data))
    else if m.channel == "report" then Some(Report)
    else if m.channel == "stripe_event" then Some(ProcessStripeEvent(m.data))
    else None
  }

  /** The channel whose messages invoke a given handler. */
  function ChannelOf(c: Call): string {
    match c
    case Trigger(_) => "trigger"
    case Report => "report"
    case ProcessStripeEvent(_) => "stripe_event"
  }

  /** The message data a handler receives; `report` receives none. */
  function DataOf(c: Call): string {
    match c
    case Trigger(address) => address
    case Report => ""
    case ProcessStripeEvent(data) => data
  }

  /** Every handler is reached by exactly the channel that names it, and is passed the message's data. */
  lemma RouteRoundTrip(c: Call, data: string)
    ensures Route(BusMessage(ChannelOf(c), DataOf(c))) == Some(c)
    ensures c.Report? ==> Route(BusMessage(ChannelOf(c), data)) == Some(c)
  {
  }

  /** `sync` is subscribed to but has no branch: its messages invoke nothing. */
  lemma SyncIsIgnored(data: string)
    ensures "sync" in Subscribed
    ensures Route(BusMessage("sync", data)) == None
  {
  }

  /** The handler invocations for a run of messages, in arrival order. */
  function Dispatched(messages: seq<BusMessage>): seq<Call>
    decreases |messages|
  {
    if messages == [] then []
    else
      var last := messages[|messages| - 1];
      Dispatched(messages[..|messages| - 1]) + (if Route(last).Some? then [Route(last).value] else [])
  }

  /** The number of messages on channels that have a branch. */
  function HandledCount(messages: seq<BusMessage>): nat {
    |set i | 0 <= i < |messages| && Route(messages[i]).Some?|
  }

  /** The loop of `run`, over the messages delivered so far. */
  method Listen(messages: seq<BusMessage>) returns (calls: seq<Call>)
    ensures calls == Dispatched(messages)
  {
    calls := [];
    var i := 0;
    while i < |messages|
      invariant 0 <= i <= |messages|
      invariant calls == Dispatched(messages[..i])
    {
      var message := messages[i];
      assert messages[..i + 1][..i] == messages[..i];
      if message.channel == "trigger" {
        calls := calls + [Trigger(message.data)];
      } else if message.channel == "report" {
        calls := calls + [Report];
      } else if message.channel == "stripe_event" {
        calls := calls + [ProcessStripeEvent(message.data)];
      }
      i := i + 1;
    }
    assert messages[..i] == messages;
  }

  /** Dispatch distributes over consecutive runs of messages. */
  lemma {:induction false} DispatchedAppend(a: seq<BusMessage>, b: seq<BusMessage>)
    ensures Dispatched(a + b) == Dispatched(a) + Dispatched(b)
    decreases |b|
  {
    if b == [] {
      assert a + b == a;
    } else {
      var b', x := b[..|b| - 1], b[|b| - 1];
      assert (a + b)[..|a + b| - 1] == a + b';
      assert (a + b)[|a + b| - 1] == x;
      DispatchedAppend(a, b');
    }
  }

  /** Removing a message on a channel without a branch (such as `sync`) changes nothing. */
  lemma UnroutedMessageChangesNothing(a: seq<BusMessage>, m: BusMessage, b: seq<BusMessage>)
    requires Route(m).None?
    ensures Dispatched(a + [m] + b) == Dispatched(a + b)
  {
    DispatchedAppend(a + [m], b);
    DispatchedAppend(a, [m]);
    DispatchedAppend(a, b);
    assert Dispatched([m]) == [] by { assert [m][..0] == []; }
  }

  /** Each message invokes at most one handler: one per message on a channel with a branch. */
  lemma {:induction false} OneCallPerHandledMessage(messages: seq<BusMessage>)
    ensures |Dispatched(messages)| == HandledCount(messages)
    ensures |Dispatched(messages)| <= |messages|
    decreases |messages|
  {
    if messages != [] {
      var m', x := messages[..|messages| - 1], messages[|messages| - 1];
      OneCallPerHandledMessage(m');
      HandledCountSnoc(m', x);
      assert m' + [x] == messages;
    }
  }

  lemma HandledCountSnoc(m: seq<BusMessage>, x: BusMessage)
    ensures HandledCount(m + [x]) == HandledCount(m) + (if Route(x).Some? then 1 else 0)
  {
    var s := m + [x];
    var handled := set i | 0 <= i < |s| && Route(s[i]).Some?;
    var before := set i | 0 <= i < |m| && Route(m[i]).Some?;
    assert |m| !in before;
    if Route(x).Some? {
      assert handled == before + {|m|};
    } else {
      assert handled == before;
    }
  }
}
