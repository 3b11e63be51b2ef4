/** What both versions of the dispatcher share: callbacks as abstract tokens, what
    awaiting one does, how a failure is classified and logged, and the routing of a
    directed send (src/brick/message.py, Dispatcher.send). */
module Delivery {
  import opened Wrappers
  import opened Values

  /** An exception escaping a callback: a TypeError or any other class, with its `args`. */
  datatype Raised = TypeError(args: seq<string>) | OtherError(args: seq<string>)

  /** What calling and then awaiting a callback does. */
  datatype Behaviour =
    | Completes                // a coroutine function that returns normally
    | NotAsync                 // a plain function: the call returns None, which cannot be awaited
    | Raises(raised: Raised)   // a coroutine function that raises

  /** A callback, identified by a token and carrying its behaviour. */
  datatype Callback = Callback(id: nat, behaviour: Behaviour)

  /** The message of the TypeError raised by `await None`. */
  const NoneAwaitMessage: string := "object NoneType can't be used in 'await' expression"

  /** The exception that escapes `await callback(...)`, if any. */
  function Escaping(b: Behaviour): (e: Option<Raised>)
    ensures e.None? <==> b.Completes?
  {
    match b
    case Completes => None
    case NotAsync => Some(Raised.TypeError([NoneAwaitMessage]))
    case Raises(r) => Some(r)
  }

  /** The description the dispatcher reads off an exception: its first argument, or ''. */
  function Description(r: Raised): string {
    if |r.args| > 0 then r.args[0] else ""
  }

  /** The methods of the injected logger the dispatcher calls. */
  datatype LogMethod = Debug | Error | Exception

  /** One call on the injected logger. */
  datatype LogCall = LogCall(via: LogMethod, text: string)

  /** The lines logged for one awaited callback described by `context`: none when it
      completes, "Callback not async" at error level for a TypeError carrying the
      await-None message, and "Callback error" through `exception` for anything else. */
  function FailureLog(b: Behaviour, context: string): (r: seq<LogCall>)
    ensures |r| <= 1
    ensures r == [] <==> b.Completes?
  {
    match Escaping(b)
    case None => []
    case Some(e) =>
      if e.TypeError? && Description(e) == NoneAwaitMessage then
        [LogCall(Error, "Callback not async - " + context)]
      else
        [LogCall(Exception, "Callback error - " + context)]
  }

  /** A plain function is reported as not async; a TypeError with any other
      description, or any other exception, as a callback error. */
  lemma FailureClassification(b: Behaviour, context: string)
    ensures FailureLog(b, context) == [LogCall(Error, "Callback not async - " + context)]
        <==> b.NotAsync? || (b.Raises? && b.raised.TypeError? && Description(b.raised) == NoneAwaitMessage)
    ensures !b.Completes? && FailureLog(b, context) != [LogCall(Error, "Callback not async - " + context)]
        ==> FailureLog(b, context) == [LogCall(Exception, "Callback error - " + context)]
  {
    var na := "Callback not async - " + context;
    var ce := "Callback error - " + context;
    assert na[..9] == "Callback " && na[9] == 'n';
    assert ce[..9] == "Callback " && ce[9] == 'e';
  }

  /** One invocation of a callback: to whom, which callback, and its arguments. */
  datatype Invocation = Invocation(recipient: string, callback: Callback, sender: string, topic: string, payload: Value)

  /** What one directed send does: the callbacks it awaits and the lines it logs. */
  datatype Outcome = Outcome(invocations: seq<Invocation>, log: seq<LogCall>)

  function SendContext(sender: string, recipient: string): string {
    sender + " -> " + recipient
  }

  /** A directed send from `sender` to `recipient` over the table of registered
      callbacks; a routing miss is logged through `missMethod`. */
  function Route(callbacks: map<string, Option<Callback>>, missMethod: LogMethod,
                 sender: string, recipient: string, topic: string, payload: Value): (r: Outcome)
    // at most one callback is awaited, and only the recipient's, with the sender's arguments
    ensures |r.invocations| <= 1
    ensures forall inv <- r.invocations ::
      recipient in callbacks && callbacks[recipient] == Some(inv.callback)
      && inv == Invocation(recipient, inv.callback, sender, topic, payload)
    ensures r.invocations != [] <==> recipient in callbacks && callbacks[recipient].Some?
    // misses are one log line each, never an exception
    ensures recipient !in callbacks ==>
      r.log == [LogCall(missMethod, "No recipient - " + SendContext(sender, recipient))]
    ensures recipient in callbacks && callbacks[recipient].None? ==>
      r.log == [LogCall(missMethod, "No callback - " + SendContext(sender, recipient))]
    // a failing callback becomes a log line, never an exception
    ensures r.invocations != [] ==>
      r.log == FailureLog(r.invocations[0].callback.behaviour, SendContext(sender, recipient))
  {
    if recipient in callbacks then
      match callbacks[recipient]
      case Some(cb) =>
        Outcome([Invocation(recipient, cb, sender, topic, payload)], FailureLog(cb.behaviour, SendContext(sender, recipient)))
      case None =>
        Outcome([], [LogCall(missMethod, "No callback - " + SendContext(sender, recipient))])
    else
      Outcome([], [LogCall(missMethod, "No recipient - " + SendContext(sender, recipient))])
  }

  /** A send awaits no callback but the recipient's: neither the sender's own nor a
      third component's, even when both are registered. */
  lemma SendReachesOnlyRecipient(callbacks: map<string, Option<Callback>>, missMethod: LogMethod,
                                 sender: string, recipient: string, topic: string, payload: Value,
                                 other: string)
    requires other != recipient
    ensures forall inv <- Route(callbacks, missMethod, sender, recipient, topic, payload).invocations ::
      inv.recipient != other
  {
  }
}
