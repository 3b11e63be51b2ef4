/** The dispatcher of the MicroPython port (src/brick/message.py): a registration
    table from component name to its optional directed callback and a subscription
    list that this version never fills, and a directed `send` whose routing misses
    are logged at debug level. */
module MicroMessage {
  import opened Wrappers
  import opened Values
  import opened Delivery

  /** What `get_broker` stores per component. */
  datatype BrokerEntry = BrokerEntry(callback: Option<Callback>, subscriptions: seq<Callback>)

  class Dispatcher {
    var brokers: map<string, BrokerEntry>
    /** The calls made on the injected logger, oldest first. */
    var log: seq<LogCall>

    constructor ()
      ensures brokers == map[] && log == []
    {
      brokers := map[];
      log := [];
    }

    /** The directed callback of each registered component. */
    function Callbacks(): (c: map<string, Option<Callback>>)
      reads this
      ensures c.Keys == brokers.Keys
      ensures forall n :: n in brokers ==> c[n] == brokers[n].callback
    {
      map n | n in brokers :: brokers[n].callback
    }

    /** Registers `component`, replacing any earlier registration under that name
        with the new callback and an empty subscription list. */
    method GetBroker(component: string, callback: Option<Callback>) returns (b: Broker)
      modifies this`brokers
      ensures component in brokers && brokers[component] == BrokerEntry(callback, [])
      ensures forall n :: n != component ==> (n in brokers <==> n in old(brokers))
      ensures forall n :: n != component && n in old(brokers) ==> brokers[n] == old(brokers)[n]
      ensures fresh(b) && b.dispatcher == this && b.component == component
    {
      brokers := brokers[component := BrokerEntry(callback, [])];
      b := new Broker(this, component);
    }

    /** Awaits the recipient's callback, if it has one, and reduces every miss and
        failure to a log line. The registration table is left as it was. */
    method Send(sender: string, recipient: string, topic: string, payload: Value)
      returns (invocations: seq<Invocation>)
      modifies this`log
      ensures invocations == Route(Callbacks(), Debug, sender, recipient, topic, payload).invocations
      ensures log == old(log) + Route(Callbacks(), Debug, sender, recipient, topic, payload).log
    {
      if recipient in brokers {
        var callback := brokers[recipient].callback;
        if callback.Some? {
          invocations := [Invocation(recipient, callback.value, sender, topic, payload)];
          log := log + FailureLog(callback.value.behaviour, SendContext(sender, recipient));
        } else {
          invocations := [];
          log := log + [LogCall(Debug, "No callback - " + SendContext(sender, recipient))];
        }
      } else {
        invocations := [];
        log := log + [LogCall(Debug, "No recipient - " + SendContext(sender, recipient))];
      }
    }
  }

  /** A component's handle on the dispatcher, bound to the component's name. */
  class Broker {
    const dispatcher: Dispatcher
    const component: string

    constructor (dispatcher: Dispatcher, component: string)
      ensures this.dispatcher == dispatcher && this.component == component
    {
      this.dispatcher := dispatcher;
      this.component := component;
    }

    /** Sends as this component: the sender is always the broker's own name. */
    method Send(recipient: string, topic: string, payload: Value) returns (invocations: seq<Invocation>)
      modifies dispatcher`log
      ensures invocations == Route(dispatcher.Callbacks(), Debug, component, recipient, topic, payload).invocations
      ensures dispatcher.log == old(dispatcher.log) + Route(dispatcher.Callbacks(), Debug, component, recipient, topic, payload).log
    {
      invocations := dispatcher.Send(component, recipient, topic, payload);
    }
  }
}
