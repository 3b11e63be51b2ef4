/** The full in-process message dispatcher: a registration table from component
    name to optional directed callback, a subscription table keyed by a
    (sender, topic) filter in which `None` is a wildcard, directed `send`,
    `subscribe`, `unsubscribe`, and `publish`, which fans an event out to every
    subscriber whose filter matches it. This is the version whose behaviour
    tests/test_message.py pins down; its routing misses are logged through the
    method given at construction (`error` in that version). */
module Message {
  import opened Wrappers
  import opened Values
  import opened Delivery

  /** A subscription filter (sender, topic); `None` matches any value. */
  type Filter = (Option<string>, Option<string>)

  /** The subscription table: filter, then subscriber name, then callback. */
  type Table = map<Filter, map<string, Callback>>

  /** `n` is subscribed under filter `f`. */
  predicate Holds(t: Table, f: Filter, n: string) {
    f in t && n in t[f]
  }

  /** No filter is kept once its last subscriber is gone. */
  predicate Tidy(t: Table) {
    forall f :: f in t ==> t[f].Keys != {}
  }

  // ---------------------------------------------------------------- subscribe / unsubscribe

  /** The table after `n` subscribes `cb` under `f`: a first subscription is
      recorded, a repeated one leaves the earlier callback in place. */
  function Subscribed(t: Table, n: string, cb: Callback, f: Filter): (r: Table)
    ensures Holds(r, f, n) && r[f][n] == (if Holds(t, f, n) then t[f][n] else cb)
    ensures r[f].Keys == (if f in t then t[f].Keys else {}) + {n}
    ensures f in t ==> forall m :: m in t[f] ==> r[f][m] == t[f][m]
    ensures r.Keys == t.Keys + {f}
    ensures forall g :: g != f && g in t ==> r[g] == t[g]
    ensures Tidy(t) ==> Tidy(r)
  {
    if Holds(t, f, n) then t
    else if f in t then t[f := t[f][n := cb]]
    else t[f := map[n := cb]]
  }

  /** The table after `n` unsubscribes from `f`; a filter left without
      subscribers disappears, and removing an absent entry changes nothing. */
  function Unsubscribed(t: Table, n: string, f: Filter): (r: Table)
    ensures !Holds(r, f, n)
    ensures f in r ==> f in t && r[f].Keys == t[f].Keys - {n} && forall m :: m in r[f] ==> r[f][m] == t[f][m]
    ensures r.Keys <= t.Keys && r.Keys >= t.Keys - {f}
    ensures forall g :: g != f && g in t ==> r[g] == t[g]
    ensures Tidy(t) ==> Tidy(r)
  {
    if !Holds(t, f, n) then t
    else if t[f].Keys == {n} then t - {f}
    else
      var rest := t[f] - {n};
      assert rest.Keys == t[f].Keys - {n};
      t[f := rest]
  }

  function AlreadySubscribedLine(subscriber: string, f: Filter): LogCall {
    LogCall(Error, "Already subscribed - " + subscriber + " -> " + OptionText(f.0) + "/" + OptionText(f.1))
  }

  /** A repeated subscription is rejected: the table is unchanged. */
  lemma {:induction false} RepeatedSubscribeKeepsTable(t: Table, n: string, cb: Callback, f: Filter)
    requires Holds(t, f, n)
    ensures Subscribed(t, n, cb, f) == t
  {
  }

  /** Subscribing and then unsubscribing with the same filter restores the table,
      so on an empty table it leaves the table empty. */
  lemma {:induction false} SubscribeThenUnsubscribe(t: Table, n: string, cb: Callback, f: Filter)
    requires Tidy(t) && !Holds(t, f, n)
    ensures Unsubscribed(Subscribed(t, n, cb, f), n, f) == t
  {
    var s := Subscribed(t, n, cb, f);
    var r := Unsubscribed(s, n, f);
    if f in t {
      assert t[f].Keys != {};
      assert s[f].Keys != {n};
      assert r[f] == t[f];
    }
    assert r.Keys == t.Keys;
  }

  // ---------------------------------------------------------------- publish

  /** The four filters an event from `sender` with `topic` is matched against, in
      the order they are tried: (S,T), (S,None), (None,T), (None,None). */
  function MatchingFilters(sender: string, topic: string): (fs: seq<Filter>)
    ensures forall f :: f in fs <==> (f.0 == None || f.0 == Some(sender)) && (f.1 == None || f.1 == Some(topic))
    ensures forall i, j :: 0 <= i < j < |fs| ==> fs[i] != fs[j]
  {
    [(Some(sender), Some(topic)), (Some(sender), None), (None, Some(topic)), (None, None)]
  }

  predicate Matches(f: Filter, sender: string, topic: string) {
    f in MatchingFilters(sender, topic)
  }

  /** The invocations the subscribers listed in `names` under one filter receive. */
  function InvocationSet(subscribers: map<string, Callback>, names: set<string>,
                         sender: string, topic: string, payload: Value): set<Invocation>
  {
    set n | n in names && n in subscribers :: Invocation(n, subscribers[n], sender, topic, payload)
  }

  /** The invocations for one filter: one per subscriber listed under it. */
  function FilterFanout(t: Table, f: Filter, sender: string, topic: string, payload: Value): multiset<Invocation> {
    if f in t then multiset(InvocationSet(t[f], t[f].Keys, sender, topic, payload)) else multiset{}
  }

  /** The invocations for a list of filters, each filter's own added up. */
  function FanoutOver(t: Table, fs: seq<Filter>, sender: string, topic: string, payload: Value): multiset<Invocation> {
    if fs == [] then multiset{}
    else FanoutOver(t, fs[..|fs| - 1], sender, topic, payload) + FilterFanout(t, fs[|fs| - 1], sender, topic, payload)
  }

  lemma FanoutOverStep(t: Table, fs: seq<Filter>, i: nat, sender: string, topic: string, payload: Value)
    requires i < |fs|
    ensures FanoutOver(t, fs[..i + 1], sender, topic, payload)
         == FanoutOver(t, fs[..i], sender, topic, payload) + FilterFanout(t, fs[i], sender, topic, payload)
  {
    assert fs[..i + 1][..i] == fs[..i];
  }

  /** Everything one publish awaits, without de-duplication across filters. */
  function Fanout(t: Table, sender: string, topic: string, payload: Value): multiset<Invocation> {
    FanoutOver(t, MatchingFilters(sender, topic), sender, topic, payload)
  }

  /** How many of the filters `fs` list `n` with callback `cb`. */
  function Registrations(t: Table, fs: seq<Filter>, n: string, cb: Callback): nat {
    if fs == [] then 0
    else Registrations(t, fs[..|fs| - 1], n, cb)
         + (if Holds(t, fs[|fs| - 1], n) && t[fs[|fs| - 1]][n] == cb then 1 else 0)
  }

  lemma FilterFanoutCount(t: Table, f: Filter, sender: string, topic: string, payload: Value, inv: Invocation)
    ensures FilterFanout(t, f, sender, topic, payload)[inv] ==
      if inv.sender == sender && inv.topic == topic && inv.payload == payload
         && Holds(t, f, inv.recipient) && t[f][inv.recipient] == inv.callback
      then 1 else 0
  {
    if f in t {
      var s := InvocationSet(t[f], t[f].Keys, sender, topic, payload);
      if inv.sender == sender && inv.topic == topic && inv.payload == payload
         && Holds(t, f, inv.recipient) && t[f][inv.recipient] == inv.callback {
        assert inv in s;
      } else {
        assert inv !in s;
      }
    }
  }

  lemma {:induction false} FanoutOverCount(t: Table, fs: seq<Filter>, sender: string, topic: string, payload: Value, inv: Invocation)
    ensures FanoutOver(t, fs, sender, topic, payload)[inv] ==
      if inv.sender == sender && inv.topic == topic && inv.payload == payload
      then Registrations(t, fs, inv.recipient, inv.callback) else 0
  {
    if fs != [] {
      FanoutOverCount(t, fs[..|fs| - 1], sender, topic, payload, inv);
      FilterFanoutCount(t, fs[|fs| - 1], sender, topic, payload, inv);
    }
  }

  /** A publish from `sender` with `topic` awaits each subscriber's callback exactly
      once per matching filter it is subscribed under with that callback, with the
      publisher's sender, topic and payload, and awaits nothing else. */
  lemma PublishCount(t: Table, sender: string, topic: string, payload: Value, inv: Invocation)
    ensures Fanout(t, sender, topic, payload)[inv] ==
      if inv.sender == sender && inv.topic == topic && inv.payload == payload
      then Registrations(t, MatchingFilters(sender, topic), inv.recipient, inv.callback) else 0
  {
    FanoutOverCount(t, MatchingFilters(sender, topic), sender, topic, payload, inv);
  }

  /** Every subscriber under a matching filter is reached. */
  lemma PublishReachesMatchingSubscriber(t: Table, sender: string, topic: string, payload: Value, f: Filter, n: string)
    requires Matches(f, sender, topic) && Holds(t, f, n)
    ensures Invocation(n, t[f][n], sender, topic, payload) in Fanout(t, sender, topic, payload)
  {
    var fs := MatchingFilters(sender, topic);
    var inv := Invocation(n, t[f][n], sender, topic, payload);
    PublishCount(t, sender, topic, payload, inv);
    var k :| 0 <= k < |fs| && fs[k] == f;
    RegistrationsPositive(t, fs, k, n, t[f][n]);
  }

  lemma {:induction false} RegistrationsPositive(t: Table, fs: seq<Filter>, k: nat, n: string, cb: Callback)
    requires k < |fs| && Holds(t, fs[k], n) && t[fs[k]][n] == cb
    ensures Registrations(t, fs, n, cb) > 0
  {
    if k < |fs| - 1 {
      RegistrationsPositive(t, fs[..|fs| - 1], k, n, cb);
    }
  }

  lemma {:induction false} RegistrationsWitness(t: Table, fs: seq<Filter>, n: string, cb: Callback)
    requires Registrations(t, fs, n, cb) > 0
    ensures exists f :: f in fs && Holds(t, f, n) && t[f][n] == cb
  {
    if !(Holds(t, fs[|fs| - 1], n) && t[fs[|fs| - 1]][n] == cb) {
      RegistrationsWitness(t, fs[..|fs| - 1], n, cb);
      var f :| f in fs[..|fs| - 1] && Holds(t, f, n) && t[f][n] == cb;
      assert f in fs;
    }
  }

  /** Nothing reaches a subscriber except through a matching filter it holds. */
  lemma PublishReachesOnlyMatchingSubscribers(t: Table, sender: string, topic: string, payload: Value, inv: Invocation)
    requires inv in Fanout(t, sender, topic, payload)
    ensures inv.sender == sender && inv.topic == topic && inv.payload == payload
    ensures exists f :: Matches(f, sender, topic) && Holds(t, f, inv.recipient) && t[f][inv.recipient] == inv.callback
  {
    PublishCount(t, sender, topic, payload, inv);
    RegistrationsWitness(t, MatchingFilters(sender, topic), inv.recipient, inv.callback);
  }

  /** After `n` unsubscribes from the only matching filter it held, a publish
      reaches it no more. */
  lemma UnsubscribeStopsDelivery(t: Table, n: string, f: Filter, sender: string, topic: string, payload: Value)
    requires forall g :: Matches(g, sender, topic) && g != f ==> !Holds(t, g, n)
    ensures forall inv <- Fanout(Unsubscribed(t, n, f), sender, topic, payload) :: inv.recipient != n
  {
    var r := Unsubscribed(t, n, f);
    forall inv | inv in Fanout(r, sender, topic, payload)
      ensures inv.recipient != n
    {
      PublishReachesOnlyMatchingSubscribers(r, sender, topic, payload, inv);
    }
  }

  function PublishContext(recipient: string, sender: string, topic: string): string {
    recipient + " <- " + sender + "/" + topic
  }

  /** The lines logged for a run of publish invocations, in order: one per failing callback. */
  function PublishLog(invs: seq<Invocation>): seq<LogCall> {
    if invs == [] then []
    else
      var last := invs[|invs| - 1];
      PublishLog(invs[..|invs| - 1]) + FailureLog(last.callback.behaviour, PublishContext(last.recipient, last.sender, last.topic))
  }

  /** The positions of the invocations whose callback fails. */
  function Failing(invs: seq<Invocation>): set<int> {
    set k | 0 <= k < |invs| && !invs[k].callback.behaviour.Completes?
  }

  lemma FailingStep(invs: seq<Invocation>)
    requires invs != []
    ensures var m := |invs| - 1;
            m !in Failing(invs[..m])
            && Failing(invs) == Failing(invs[..m]) + if invs[m].callback.behaviour.Completes? then {} else {m}
  {
    var m := |invs| - 1;
    forall k | 0 <= k < m
      ensures k in Failing(invs[..m]) <==> k in Failing(invs)
    {
      assert invs[..m][k] == invs[k];
    }
  }

  /** Failures are isolated: exactly the failing invocations produce a line each,
      and a completing subscriber adds nothing to the log. */
  lemma {:induction false} PublishLogLength(invs: seq<Invocation>)
    ensures |PublishLog(invs)| == |Failing(invs)|
  {
    if invs != [] {
      var m := |invs| - 1;
      PublishLogLength(invs[..m]);
      FailingStep(invs);
    }
  }

  lemma {:induction false} PublishLogAppend(a: seq<Invocation>, b: seq<Invocation>)
    ensures PublishLog(a + b) == PublishLog(a) + PublishLog(b)
  {
    if b != [] {
      var m := |b| - 1;
      assert (a + b)[..|a + b| - 1] == a + b[..m];
      PublishLogAppend(a, b[..m]);
    } else {
      assert a + b == a;
    }
  }

  lemma PublishLogSingle(invs: seq<Invocation>, inv: Invocation)
    ensures PublishLog(invs + [inv]) == PublishLog(invs) + FailureLog(inv.callback.behaviour, PublishContext(inv.recipient, inv.sender, inv.topic))
  {
    assert (invs + [inv])[..|invs|] == invs;
  }

  lemma InvocationSetStep(subscribers: map<string, Callback>, done: set<string>, n: string,
                          sender: string, topic: string, payload: Value, sofar: seq<Invocation>)
    requires n in subscribers && n !in done
    requires multiset(sofar) == multiset(InvocationSet(subscribers, done, sender, topic, payload))
    ensures multiset(sofar + [Invocation(n, subscribers[n], sender, topic, payload)])
         == multiset(InvocationSet(subscribers, done + {n}, sender, topic, payload))
  {
    var inv := Invocation(n, subscribers[n], sender, topic, payload);
    var a := InvocationSet(subscribers, done, sender, topic, payload);
    assert inv !in a;
    assert InvocationSet(subscribers, done + {n}, sender, topic, payload) == a + {inv};
    assert multiset(a + {inv}) == multiset(a) + multiset{inv};
  }

  /** Awaits each subscriber listed under one filter, with the event's arguments,
      and returns the lines its failures log, in the order they were awaited. */
  method NotifySubscribers(subscribers: map<string, Callback>, sender: string, topic: string, payload: Value)
    returns (invocations: seq<Invocation>, lines: seq<LogCall>)
    ensures multiset(invocations) == multiset(InvocationSet(subscribers, subscribers.Keys, sender, topic, payload))
    ensures lines == PublishLog(invocations)
  {
    invocations, lines := [], [];
    var pending := subscribers.Keys;
    ghost var done: set<string> := {};
    while pending != {}
      invariant NotifyProgress(subscribers, done, pending, sender, topic, payload, invocations, lines)
      decreases pending
    {
      var n :| n in pending;
      var inv := Invocation(n, subscribers[n], sender, topic, payload);
      NotifyStep(subscribers, done, pending, sender, topic, payload, invocations, lines, n);
      lines := lines + FailureLog(inv.callback.behaviour, PublishContext(n, sender, topic));
      invocations := invocations + [inv];
      pending := pending - {n};
      done := done + {n};
    }
  }

  /** Part way through one filter's subscribers: those done have been
      invoked once each, and the log holds their failures. */
  ghost predicate NotifyProgress(subscribers: map<string, Callback>, done: set<string>, pending: set<string>,
                                 sender: string, topic: string, payload: Value,
                                 invocations: seq<Invocation>, lines: seq<LogCall>) {
    pending + done == subscribers.Keys && pending !! done
    && multiset(invocations) == multiset(InvocationSet(subscribers, done, sender, topic, payload))
    && lines == PublishLog(invocations)
  }

  lemma NotifyStep(subscribers: map<string, Callback>, done: set<string>, pending: set<string>,
                   sender: string, topic: string, payload: Value,
                   invocations: seq<Invocation>, lines: seq<LogCall>, n: string)
    requires NotifyProgress(subscribers, done, pending, sender, topic, payload, invocations, lines) && n in pending
    ensures var inv := Invocation(n, subscribers[n], sender, topic, payload);
            NotifyProgress(subscribers, done + {n}, pending - {n}, sender, topic, payload, invocations + [inv],
                           lines + FailureLog(inv.callback.behaviour, PublishContext(n, sender, topic)))
  {
    var inv := Invocation(n, subscribers[n], sender, topic, payload);
    InvocationSetStep(subscribers, done, n, sender, topic, payload, invocations);
    PublishLogSingle(invocations, inv);
  }

  // ---------------------------------------------------------------- the dispatcher

  class Dispatcher {
    var callbacks: map<string, Option<Callback>>
    var subscriptions: Table
    /** The calls made on the injected logger, oldest first. */
    var log: seq<LogCall>
    /** The logger method routing misses are reported through. */
    const missMethod: LogMethod

    ghost predicate Valid()
      reads this
    {
      Tidy(subscriptions)
    }

    constructor (missMethod: LogMethod)
      ensures Valid()
      ensures callbacks == map[] && subscriptions == map[] && log == [] && this.missMethod == missMethod
    {
      callbacks := map[];
      subscriptions := map[];
      log := [];
      this.missMethod := missMethod;
    }

    /** Registers `component` with its optional directed callback, replacing an
        earlier registration of the same name, and hands out its broker. */
    method GetBroker(component: string, callback: Option<Callback>) returns (b: Broker)
      modifies this`callbacks
      ensures callbacks == old(callbacks)[component := callback]
      ensures fresh(b) && b.dispatcher == this && b.component == component
    {
      callbacks := callbacks[component := callback];
      b := new Broker(this, component);
    }

    /** Awaits the recipient's callback, if it has one; every miss and failure
        becomes a log line. Neither table changes. */
    method Send(sender: string, recipient: string, topic: string, payload: Value)
      returns (invocations: seq<Invocation>)
      modifies this`log
      ensures invocations == Route(callbacks, missMethod, sender, recipient, topic, payload).invocations
      ensures log == old(log) + Route(callbacks, missMethod, sender, recipient, topic, payload).log
    {
      if recipient in callbacks {
        var callback := callbacks[recipient];
        if callback.Some? {
          invocations := [Invocation(recipient, callback.value, sender, topic, payload)];
          log := log + FailureLog(callback.value.behaviour, SendContext(sender, recipient));
        } else {
          invocations := [];
          log := log + [LogCall(missMethod, "No callback - " + SendContext(sender, recipient))];
        }
      } else {
        invocations := [];
        log := log + [LogCall(missMethod, "No recipient - " + SendContext(sender, recipient))];
      }
    }

    /** Subscribes `subscriber` under filter (sender, topic); a repeated
        subscription is logged as an error and the earlier callback stays. */
    method Subscribe(subscriber: string, callback: Callback, sender: Option<string>, topic: Option<string>)
      requires Valid()
      modifies this`subscriptions, this`log
      ensures subscriptions == Subscribed(old(subscriptions), subscriber, callback, (sender, topic))
      ensures Valid()
      ensures log == old(log) + if Holds(old(subscriptions), (sender, topic), subscriber)
                                then [AlreadySubscribedLine(subscriber, (sender, topic))] else []
    {
      var f := (sender, topic);
      if f in subscriptions && subscriber in subscriptions[f] {
        log := log + [AlreadySubscribedLine(subscriber, f)];
      } else if f in subscriptions {
        subscriptions := subscriptions[f := subscriptions[f][subscriber := callback]];
      } else {
        subscriptions := subscriptions[f := map[subscriber := callback]];
      }
    }

    /** Removes the subscription of `subscriber` under (sender, topic), dropping
        the filter when no subscriber is left; nothing is logged. */
    method Unsubscribe(subscriber: string, sender: Option<string>, topic: Option<string>)
      requires Valid()
      modifies this`subscriptions
      ensures subscriptions == Unsubscribed(old(subscriptions), subscriber, (sender, topic))
      ensures Valid()
    {
      var f := (sender, topic);
      if f in subscriptions && subscriber in subscriptions[f] {
        if subscriptions[f].Keys == {subscriber} {
          subscriptions := subscriptions - {f};
        } else {
          subscriptions := subscriptions[f := subscriptions[f] - {subscriber}];
        }
      }
    }

    /** Awaits every subscriber under the four matching filters, each with
        (sender, topic, payload); a failing callback becomes a log line and the
        others are still awaited. */
    method Publish(sender: string, topic: string, payload: Value) returns (invocations: seq<Invocation>)
      modifies this`log
      ensures multiset(invocations) == Fanout(subscriptions, sender, topic, payload)
      ensures log == old(log) + PublishLog(invocations)
    {
      invocations := [];
      var lines := [];
      var filters := MatchingFilters(sender, topic);
      var i := 0;
      while i < |filters|
        invariant 0 <= i <= |filters|
        invariant multiset(invocations) == FanoutOver(subscriptions, filters[..i], sender, topic, payload)
        invariant lines == PublishLog(invocations)
        invariant log == old(log)
      {
        var f := filters[i];
        FanoutOverStep(subscriptions, filters, i, sender, topic, payload);
        if f in subscriptions {
          var reached, failures := NotifySubscribers(subscriptions[f], sender, topic, payload);
          PublishLogAppend(invocations, reached);
          invocations := invocations + reached;
          lines := lines + failures;
        }
        i := i + 1;
      }
      assert filters[..|filters|] == filters;
      log := log + lines;
    }
  }

  /** A component's handle on the dispatcher, bound to the component's name,
      which it supplies as sender or subscriber on every call. */
  class Broker {
    const dispatcher: Dispatcher
    const component: string

    constructor (dispatcher: Dispatcher, component: string)
      ensures this.dispatcher == dispatcher && this.component == component
    {
      this.dispatcher := dispatcher;
      this.component := component;
    }

    method Send(recipient: string, topic: string, payload: Value) returns (invocations: seq<Invocation>)
      modifies dispatcher`log
      ensures invocations == Route(dispatcher.callbacks, dispatcher.missMethod, component, recipient, topic, payload).invocations
      ensures dispatcher.log == old(dispatcher.log) + Route(dispatcher.callbacks, dispatcher.missMethod, component, recipient, topic, payload).log
    {
      invocations := dispatcher.Send(component, recipient, topic, payload);
    }

    method Subscribe(callback: Callback, sender: Option<string>, topic: Option<string>)
      requires dispatcher.Valid()
      modifies dispatcher`subscriptions, dispatcher`log
      ensures dispatcher.Valid()
      ensures dispatcher.subscriptions == Subscribed(old(dispatcher.subscriptions), component, callback, (sender, topic))
      ensures dispatcher.log == old(dispatcher.log) + if Holds(old(dispatcher.subscriptions), (sender, topic), component)
                                                      then [AlreadySubscribedLine(component, (sender, topic))] else []
    {
      dispatcher.Subscribe(component, callback, sender, topic);
    }

    method Unsubscribe(sender: Option<string>, topic: Option<string>)
      requires dispatcher.Valid()
      modifies dispatcher`subscriptions
      ensures dispatcher.Valid()
      ensures dispatcher.subscriptions == Unsubscribed(old(dispatcher.subscriptions), component, (sender, topic))
    {
      dispatcher.Unsubscribe(component, sender, topic);
    }

    method Publish(topic: string, payload: Value) returns (invocations: seq<Invocation>)
      modifies dispatcher`log
      ensures multiset(invocations) == Fanout(dispatcher.subscriptions, component, topic, payload)
      ensures dispatcher.log == old(dispatcher.log) + PublishLog(invocations)
    {
      invocations := dispatcher.Publish(component, topic, payload);
    }
  }
}
