/** The log collector of brick/logging.py and its MicroPython port
    src/brick/logging.py: level names and numbers, consumers with a default
    threshold and per-component thresholds, and loggers that forward records
    at fixed levels. Both versions share the same consumer table and filter;
    the desktop one also hands a timestamp to each callback, which is left
    out here.

    A consumer callback is an abstract token; calling it is recorded as a
    `Record`. The fresh `uuid4()` of `add_consumer` is a counter. */
module Logging {
  import opened Wrappers

  const CriticalLevel := 50
  const ErrorLevel := 40
  const WarningLevel := 30
  const InfoLevel := 20
  const DebugLevel := 10
  /** What an unknown level name maps to: above every defined level. */
  const NotSet := 100

  const LevelNumber: map<string, int> :=
    map["critical" := CriticalLevel, "error" := ErrorLevel, "warning" := WarningLevel, "info" := InfoLevel, "debug" := DebugLevel]
  const LevelName: map<int, string> :=
    map[CriticalLevel := "critical", ErrorLevel := "error", WarningLevel := "warning", InfoLevel := "info", DebugLevel := "debug"]

  /** `LEVEL_NAME` inverts `LEVEL_NUMBER` on the five levels, in both directions. */
  lemma LevelTablesInverse()
    ensures forall n :: n in LevelNumber ==> LevelNumber[n] in LevelName && LevelName[LevelNumber[n]] == n
    ensures forall l :: l in LevelName ==> LevelName[l] in LevelNumber && LevelNumber[LevelName[l]] == l
    ensures forall l :: l in LevelName ==> l < NotSet
  {
    assert LevelNumber.Keys == {"critical", "error", "warning", "info", "debug"};
    assert LevelName.Keys == {50, 40, 30, 20, 10};
  }

  /** `LEVEL_NUMBER.get(name, NOTSET)`. */
  function LevelOf(name: string): (l: int)
    ensures name in LevelNumber ==> l == LevelNumber[name] && l in LevelName && LevelName[l] == name
    ensures name !in LevelNumber ==> l == NotSet
  {
    LevelTablesInverse();
    if name in LevelNumber then LevelNumber[name] else NotSet
  }

  // ------------------------------------------------------------ consumers

  type ConsumerId = nat

  /** One entry of `consumers`: the callback, the default threshold and the
      thresholds of named components. */
  datatype Consumer = Consumer(callback: nat, level: int, components: map<string, int>)

  /** `consumer['components'].get(component, consumer['level'])`. */
  function Threshold(c: Consumer, component: string): int {
    if component in c.components then c.components[component] else c.level
  }

  /** The test of `LogCollector.log`. */
  predicate Reaches(c: Consumer, level: int, component: string) {
    level >= Threshold(c, component)
  }

  /** The consumers a record at `level` from `component` is for. */
  function Audience(cs: map<ConsumerId, Consumer>, level: int, component: string): set<ConsumerId> {
    set id | id in cs && Reaches(cs[id], level, component)
  }

  /** A record at a higher level reaches everyone a lower one reaches. */
  lemma AudienceGrowsWithLevel(cs: map<ConsumerId, Consumer>, low: int, high: int, component: string)
    requires low <= high
    ensures Audience(cs, low, component) <= Audience(cs, high, component)
  {
  }

  /** The per-component thresholds of `add_consumer`, unknown names becoming NOTSET. */
  function Thresholds(components: map<string, string>): (t: map<string, int>)
    ensures t.Keys == components.Keys
    ensures forall c :: c in t ==> t[c] == LevelOf(components[c])
  {
    map c | c in components :: LevelOf(components[c])
  }

  /** `components or dict()` of the desktop version: `None` counts as no components. */
  function GivenComponents(given: Option<map<string, string>>): (m: map<string, string>)
    ensures given.None? ==> m == map[]
    ensures given.Some? ==> m == given.value
  {
    if given.Some? then given.value else map[]
  }

  /** A consumer added under an unknown level name hears nothing at any
      defined level from a component that has no threshold of its own. */
  lemma UnknownLevelSilences(callback: nat, level: string, components: map<string, string>, component: string, l: int)
    requires level !in LevelNumber && component !in components && l in LevelName
    ensures !Reaches(Consumer(callback, LevelOf(level), Thresholds(components)), l, component)
  {
    LevelTablesInverse();
  }

  /** A component's own threshold overrides the default both ways: a known
      name lets through exactly the records at or above its level. */
  lemma ComponentThresholdDecides(callback: nat, level: string, components: map<string, string>, component: string, l: int)
    requires component in components && components[component] in LevelNumber
    ensures Reaches(Consumer(callback, LevelOf(level), Thresholds(components)), l, component)
            <==> l >= LevelNumber[components[component]]
  {
  }

  // ------------------------------------------------------------ delivery

  /** One callback call `callback(level, component, message)`. */
  datatype Record = Record(consumer: ConsumerId, callback: nat, level: int, component: string, message: string)

  /** The consumers the records went to, in order. */
  function Reached(records: seq<Record>): set<ConsumerId> {
    if records == [] then {} else Reached(records[..|records| - 1]) + {records[|records| - 1].consumer}
  }

  /** No consumer gets the same record twice. */
  predicate Distinct(records: seq<Record>) {
    records == [] || (Distinct(records[..|records| - 1]) && records[|records| - 1].consumer !in Reached(records[..|records| - 1]))
  }

  /** Every record is the call of its consumer's callback with these arguments. */
  predicate Sound(cs: map<ConsumerId, Consumer>, level: int, component: string, message: string, records: seq<Record>) {
    forall k :: 0 <= k < |records| ==>
      records[k].consumer in cs && records[k] == Record(records[k].consumer, cs[records[k].consumer].callback, level, component, message)
  }

  /** What `log(level, component, message)` does: one call to each consumer
      in the audience, and no other. */
  predicate Delivered(cs: map<ConsumerId, Consumer>, level: int, component: string, message: string, records: seq<Record>) {
    Sound(cs, level, component, message, records) && Distinct(records) && Reached(records) == Audience(cs, level, component)
  }

  /** Each consumer in the audience is called exactly once. */
  lemma {:induction false} DeliveredCount(cs: map<ConsumerId, Consumer>, level: int, component: string, message: string, records: seq<Record>)
    requires Delivered(cs, level, component, message, records)
    ensures |records| == |Audience(cs, level, component)|
  {
    DistinctCount(records);
  }

  lemma {:induction false} DistinctCount(records: seq<Record>)
    requires Distinct(records)
    ensures |Reached(records)| == |records|
  {
    if records != [] {
      DistinctCount(records[..|records| - 1]);
    }
  }

  lemma ReachedAppend(records: seq<Record>, r: Record)
    ensures Reached(records + [r]) == Reached(records) + {r.consumer}
    ensures Distinct(records + [r]) <==> Distinct(records) && r.consumer !in Reached(records)
  {
    assert (records + [r])[..|records|] == records;
  }

  class LogCollector {
    var consumers: map<ConsumerId, Consumer>
    /** Stands for the fresh identifiers `uuid4()` hands out. */
    var nextId: nat

    ghost predicate Valid()
      reads this
    {
      forall id :: id in consumers ==> id < nextId
    }

    constructor()
      ensures consumers == map[] && Valid()
    {
      consumers := map[];
      nextId := 0;
    }

    /** `log(level, component, message)`: each consumer whose threshold for the
        component the level meets gets one call. */
    method Log(level: int, component: string, message: string) returns (records: seq<Record>)
      ensures Delivered(consumers, level, component, message, records)
    {
      records := [];
      var pending := consumers.Keys;
      while pending != {}
        invariant pending <= consumers.Keys
        invariant Sound(consumers, level, component, message, records) && Distinct(records)
        invariant forall id :: id in Reached(records) <==> id in consumers && id !in pending && Reaches(consumers[id], level, component)
        decreases pending
      {
        var id :| id in pending;
        if Reaches(consumers[id], level, component) {
          var r := Record(id, consumers[id].callback, level, component, message);
          ReachedAppend(records, r);
          records := records + [r];
        }
        pending := pending - {id};
      }
    }

    /** `add_consumer(callback, level, components)`: one new entry under a
        fresh id, level names mapped to numbers. */
    method AddConsumer(callback: nat, level: string, components: map<string, string>) returns (id: ConsumerId)
      requires Valid()
      modifies this
      ensures Valid()
      ensures id !in old(consumers)
      ensures consumers == old(consumers)[id := Consumer(callback, LevelOf(level), Thresholds(components))]
    {
      id := nextId;
      nextId := nextId + 1;
      consumers := consumers[id := Consumer(callback, LevelOf(level), Thresholds(components))];
    }

    /** The desktop `add_consumer`, which first replaces a missing
        `components` by no components. */
    method AddDesktopConsumer(callback: nat, level: string, components: Option<map<string, string>>)
      returns (id: ConsumerId)
      requires Valid()
      modifies this
      ensures Valid()
      ensures id !in old(consumers)
      ensures consumers == old(consumers)[id := Consumer(callback, LevelOf(level), Thresholds(GivenComponents(components)))]
      ensures components.None? ==> consumers[id].components == map[]
    {
      id := AddConsumer(callback, level, GivenComponents(components));
    }

    /** `remove_consumer(consumer_id)`: that entry and no other goes; it is
        returned, or `None` when there was none. */
    method RemoveConsumer(id: ConsumerId) returns (removed: Option<Consumer>)
      requires Valid()
      modifies this`consumers
      ensures Valid()
      ensures consumers == old(consumers) - {id}
      ensures id in old(consumers) ==> removed == Some(old(consumers)[id])
      ensures id !in old(consumers) ==> removed.None?
    {
      if id in consumers {
        removed := Some(consumers[id]);
      } else {
        removed := None;
      }
      consumers := consumers - {id};
    }
  }

  /** A component's logger: each method forwards at its fixed level. */
  class Logger {
    const collector: LogCollector
    const component: string

    /** `LogCollector.get_logger(component)`. */
    constructor(collector: LogCollector, component: string)
      ensures this.collector == collector && this.component == component
    {
      this.collector := collector;
      this.component := component;
    }

    method Log(level: int, message: string) returns (records: seq<Record>)
      ensures Delivered(collector.consumers, level, component, message, records)
    {
      records := collector.Log(level, component, message);
    }

    method Debug(message: string) returns (records: seq<Record>)
      ensures Delivered(collector.consumers, DebugLevel, component, message, records)
    {
      records := Log(DebugLevel, message);
    }

    method Info(message: string) returns (records: seq<Record>)
      ensures Delivered(collector.consumers, InfoLevel, component, message, records)
    {
      records := Log(InfoLevel, message);
    }

    method Warning(message: string) returns (records: seq<Record>)
      ensures Delivered(collector.consumers, WarningLevel, component, message, records)
    {
      records := Log(WarningLevel, message);
    }

    method Error(message: string) returns (records: seq<Record>)
      ensures Delivered(collector.consumers, ErrorLevel, component, message, records)
    {
      records := Log(ErrorLevel, message);
    }

    method Critical(message: string) returns (records: seq<Record>)
      ensures Delivered(collector.consumers, CriticalLevel, component, message, records)
    {
      records := Log(CriticalLevel, message);
    }

    /** `exception(message, error)`: the message, then the traceback text,
        both at ERROR. */
    method Exception(message: string, traceback: string) returns (first: seq<Record>, second: seq<Record>)
      ensures Delivered(collector.consumers, ErrorLevel, component, message, first)
      ensures Delivered(collector.consumers, ErrorLevel, component, traceback, second)
    {
      first := Log(ErrorLevel, message);
      second := Log(ErrorLevel, traceback);
    }
  }
}
