/** Usage statistics: a transaction collects custom measures and properties and is reported
    as one telemetry event when it completes. */
module UsageData {
  import opened JsValues

  const ExtensionId := "eskibear.vscode-maven"
  const DurationKey := "duration"

  /** The kinds of telemetry event. */
  datatype EventType = Error | Transection | Event {
    function Name(): string {
      match this
      case Error => "Error"
      case Transection => "Transection"
      case Event => "Event"
    }
  }

  /** `${extensionId}/${eventType}`. */
  function EventName(eventType: EventType): string {
    ExtensionId + "/" + eventType.Name()
  }

  /** A value a transaction records as an observation or a property. Dates are milliseconds. */
  datatype Value = UndefinedValue | NullValue | Bool(b: bool) | Number(n: real) | Text(t: string) | Date(time: int)

  /** One custom measure: its observations in arrival order and the reducer that turns them
      into the reported number. */
  datatype Measure = Measure(observes: seq<Value>, reduceFunc: seq<Value> -> real)

  /** The event built from a transaction. */
  datatype CustomEvent = CustomEvent(properties: map<string, Value>, measures: map<string, real>)

  /** What reporting a transaction amounts to. Building the event throws when a timestamp is
      missing; otherwise the event is sent when statistics are enabled. */
  datatype Report = Sent(eventName: string, event: CustomEvent) | Disabled | Threw

  // ---- Measures, as values --------------------------------------------------------------

  /** The measures after `initMeasure(key, reduceFunc)`. */
  function WithMeasure(measures: map<string, Measure>, key: string, reduceFunc: seq<Value> -> real): (r: map<string, Measure>)
    ensures r.Keys == measures.Keys + {key}
    ensures key in measures ==> r[key] == measures[key]
    ensures key !in measures ==> r[key].observes == [] && r[key].reduceFunc == reduceFunc
    ensures forall k :: k in measures && k != key ==> r[k] == measures[k]
  {
    if key in measures then measures else measures[key := Measure([], reduceFunc)]
  }

  /** The measures after `observeMeasure(key, observe)`. */
  function WithObservation(measures: map<string, Measure>, key: string, observe: Value): (r: map<string, Measure>)
    ensures r.Keys == measures.Keys
    ensures key in measures ==> r[key].observes == measures[key].observes + [observe] && r[key].reduceFunc == measures[key].reduceFunc
    ensures forall k :: k in measures && k != key ==> r[k] == measures[k]
  {
    if key in measures then measures[key := measures[key].(observes := measures[key].observes + [observe])] else measures
  }

  /** The measures after observing `observes` one after another under `key`. */
  function ObserveAll(measures: map<string, Measure>, key: string, observes: seq<Value>): (r: map<string, Measure>)
    ensures r.Keys == measures.Keys
    decreases |observes|
  {
    if |observes| == 0 then measures
    else ObserveAll(WithObservation(measures, key, observes[0]), key, observes[1..])
  }

  /** Observations accumulate in order under a known key, reach no other key and are
      dropped under an unknown one. */
  lemma {:induction false} ObservationsAccumulate(measures: map<string, Measure>, key: string, observes: seq<Value>)
    ensures var r := ObserveAll(measures, key, observes);
            && r.Keys == measures.Keys
            && (key in measures ==> r[key].observes == measures[key].observes + observes && r[key].reduceFunc == measures[key].reduceFunc)
            && (forall k :: k in measures && k != key ==> r[k] == measures[k])
  {
    if |observes| > 0 {
      var next := WithObservation(measures, key, observes[0]);
      ObservationsAccumulate(next, key, observes[1..]);
      if key in measures {
        assert measures[key].observes + [observes[0]] + observes[1..] == measures[key].observes + observes;
      }
    }
  }

  /** Initialising a measure twice keeps the first: the second call is a no-op. */
  lemma InitMeasureIdempotent(measures: map<string, Measure>, key: string, first: seq<Value> -> real, second: seq<Value> -> real)
    ensures WithMeasure(WithMeasure(measures, key, first), key, second) == WithMeasure(measures, key, first)
  {
  }

  /** Re-initialising a measure that has observations does not reset them. */
  lemma InitMeasureKeepsObservations(measures: map<string, Measure>, key: string, observes: seq<Value>, reduceFunc: seq<Value> -> real)
    requires key in measures
    ensures WithMeasure(ObserveAll(measures, key, observes), key, reduceFunc)[key].observes == measures[key].observes + observes
  {
    ObservationsAccumulate(measures, key, observes);
  }

  // ---- The event ---------------------------------------------------------------------------

  /** The `measures` of the event: each custom measure reduced, then `duration`. */
  function EventMeasures(measures: map<string, Measure>, startAt: int, stopAt: int): (r: map<string, real>)
    ensures r.Keys == measures.Keys + {DurationKey}
    ensures r[DurationKey] == (stopAt - startAt) as real
    ensures forall k :: k in measures && k != DurationKey ==> r[k] == measures[k].reduceFunc(measures[k].observes)
  {
    (map k | k in measures :: measures[k].reduceFunc(measures[k].observes))[DurationKey := (stopAt - startAt) as real]
  }

  /** The `properties` of the event: the custom properties, then the three timestamps and
      the outcome, whose keys win over custom ones. */
  function EventProperties(properties: map<string, Value>, startAt: Option<int>, stopAt: Option<int>, success: Option<bool>): (r: map<string, Value>)
    ensures r.Keys == properties.Keys + {"startAt", "stopAt", "success"}
    ensures r["startAt"] == DateOf(startAt) && r["stopAt"] == DateOf(stopAt) && r["success"] == FlagOf(success)
    ensures forall k :: k in properties && k !in {"startAt", "stopAt", "success"} ==> r[k] == properties[k]
  {
    properties["startAt" := DateOf(startAt)]["stopAt" := DateOf(stopAt)]["success" := FlagOf(success)]
  }

  function DateOf(d: Option<int>): Value {
    if d.Some? then Date(d.value) else UndefinedValue
  }

  function FlagOf(b: Option<bool>): Value {
    if b.Some? then Bool(b.value) else UndefinedValue
  }

  /** A measure initialised on a fresh key and then observed is reported as its reducer
      applied to exactly those observations, unless it is named `duration`. */
  lemma ReportedMeasureReducesObservations(measures: map<string, Measure>, key: string, reduceFunc: seq<Value> -> real,
                                           observes: seq<Value>, startAt: int, stopAt: int)
    requires key !in measures && key != DurationKey
    ensures EventMeasures(ObserveAll(WithMeasure(measures, key, reduceFunc), key, observes), startAt, stopAt)[key] == reduceFunc(observes)
  {
    ObservationsAccumulate(WithMeasure(measures, key, reduceFunc), key, observes);
    assert [] + observes == observes;
  }

  // ---- The transaction -------------------------------------------------------------------

  /** One transaction: its timestamps, its outcome and its custom measures and properties. */
  class Transaction {
    var id: JsString
    var name: JsString
    var startAt: Option<int>
    var stopAt: Option<int>
    var success: Option<bool>
    var customMeasures: map<string, Measure>
    var customProperties: map<string, Value>

    /** `new Transaction()`: both dictionaries empty, every other field `undefined`. */
    constructor ()
      ensures id == Undefined && name == Undefined
      ensures startAt.None? && stopAt.None? && success.None?
      ensures customMeasures == map[] && customProperties == map[]
    {
      id := Undefined;
      name := Undefined;
      startAt := None;
      stopAt := None;
      success := None;
      customMeasures := map[];
      customProperties := map[];
    }

    /** `getCustomEvent()`: `None` where reading a missing timestamp throws. */
    function GetCustomEvent(): (r: Option<CustomEvent>)
      reads this
      ensures r.Some? <==> startAt.Some? && stopAt.Some?
      ensures r.Some? ==> r.value.measures == EventMeasures(customMeasures, startAt.value, stopAt.value)
      ensures r.Some? ==> r.value.properties == EventProperties(customProperties, startAt, stopAt, success)
    {
      if startAt.Some? && stopAt.Some? then
        Some(CustomEvent(EventProperties(customProperties, startAt, stopAt, success), EventMeasures(customMeasures, startAt.value, stopAt.value)))
      else
        None
    }

    /** `initMeasure(key, reduceFunc)`. */
    method InitMeasure(key: string, reduceFunc: seq<Value> -> real)
      modifies this
      ensures customMeasures == WithMeasure(old(customMeasures), key, reduceFunc)
      ensures id == old(id) && name == old(name) && startAt == old(startAt) && stopAt == old(stopAt) && success == old(success)
      ensures customProperties == old(customProperties)
    {
      if key !in customMeasures {
        customMeasures := customMeasures[key := Measure([], reduceFunc)];
      }
    }

    /** `observeMeasure(key, observe)`. */
    method ObserveMeasure(key: string, observe: Value)
      modifies this
      ensures customMeasures == WithObservation(old(customMeasures), key, observe)
      ensures id == old(id) && name == old(name) && startAt == old(startAt) && stopAt == old(stopAt) && success == old(success)
      ensures customProperties == old(customProperties)
    {
      if key in customMeasures {
        var m := customMeasures[key];
        customMeasures := customMeasures[key := m.(observes := m.observes + [observe])];
      }
    }

    /** `complete()` at time `now`, with statistics enabled or not: stamps the stop time and
      reports the transaction. */
    method Complete(now: int, enabled: bool) returns (report: Report)
      modifies this
      ensures stopAt == Some(now)
      ensures id == old(id) && name == old(name) && startAt == old(startAt) && success == old(success)
      ensures customMeasures == old(customMeasures) && customProperties == old(customProperties)
      ensures report == ReportTransaction(this, enabled)
      ensures report.Threw? <==> startAt.None?
    {
      stopAt := Some(now);
      report := ReportTransaction(this, enabled);
    }
  }

  /** `startTransaction()` at time `now`. */
  method StartTransaction(now: int) returns (trans: Transaction)
    ensures fresh(trans)
    ensures trans.id == Null && trans.startAt == Some(now)
    ensures trans.name == Undefined && trans.stopAt.None? && trans.success.None?
    ensures trans.customMeasures == map[] && trans.customProperties == map[]
  {
    trans := new Transaction();
    trans.id := Null;
    trans.startAt := Some(now);
  }

  /** `reportTransaction(transaction)`: the event is built first, then sent only when
      statistics are enabled, under the transaction event name. */
  function ReportTransaction(transaction: Transaction, enabled: bool): (r: Report)
    reads transaction
    ensures r.Threw? <==> transaction.GetCustomEvent().None?
    ensures r.Sent? <==> enabled && transaction.GetCustomEvent().Some?
    ensures r.Sent? ==> r.eventName == EventName(Transection) && r.event == transaction.GetCustomEvent().value
  {
    match transaction.GetCustomEvent()
    case None => Threw
    case Some(event) => if enabled then Sent(EventName(Transection), event) else Disabled
  }

  /** The event name of a transaction is `eskibear.vscode-maven/Transection`. */
  lemma TransactionEventName()
    ensures EventName(Transection) == "eskibear.vscode-maven/Transection"
  {
  }

  /** A transaction started and completed reports its elapsed time and its custom measures. */
  method CompletedTransactionReportsDuration(start: int, stop: int, key: string, reduceFunc: seq<Value> -> real, observe: Value)
    returns (report: Report)
    requires key != DurationKey
    ensures && report.Sent? && report.eventName == EventName(Transection)
            && DurationKey in report.event.measures && report.event.measures[DurationKey] == (stop - start) as real
            && key in report.event.measures && report.event.measures[key] == reduceFunc([observe])
  {
    var trans := StartTransaction(start);
    trans.InitMeasure(key, reduceFunc);
    trans.ObserveMeasure(key, observe);
    assert trans.customMeasures[key] == Measure([observe], reduceFunc);
    report := trans.Complete(stop, true);
    assert report.event.measures == EventMeasures(trans.customMeasures, start, stop);
  }
}
