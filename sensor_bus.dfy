/*
 * The sensor bus: every published (topic, data) pair is announced as a
 * generic event, and a known topic carrying its key is also announced on
 * that topic's own signal. The bus keeps no state, so publishing is a
 * function from the pair to the signals it emits, in order.
 */
module SensorBus {
  import opened Common

  datatype Event =
    | EventReceived(topic: string, data: map<string, Value>)
    | LightLevelChanged(level: real)
    | TemperatureChanged(celsius: real)
    | MotionDetected(detected: bool)
    | ProximityChanged(distance: real)
    | AmbientSoundLevelChanged(soundLevel: real)
    | TimeOfDayChanged(period: string)
    | WeatherConditionChanged(condition: string)
    | ModeChanged(mode: string)
    | SystemStateChanged(state: string)

  /** The routing table: each topic and the key its signal needs, in the order they are tried. */
  const Routes: seq<(string, string)> := [
    ("light/level", "level"), ("temperature", "celsius"), ("motion", "detected"),
    ("proximity", "distance"), ("sound/level", "level"), ("time/period", "period"),
    ("weather/condition", "condition"), ("system/mode", "mode"), ("system/state", "state")]

  /** The signal of route `i`, carrying the route key's value converted as the signal's parameter type asks. */
  function RouteSignal(i: nat, v: Value): Event
    requires i < |Routes|
  {
    if i == 0 then LightLevelChanged(ToReal(v))
    else if i == 1 then TemperatureChanged(ToReal(v))
    else if i == 2 then MotionDetected(ToBool(v))
    else if i == 3 then ProximityChanged(ToReal(v))
    else if i == 4 then AmbientSoundLevelChanged(ToReal(v))
    else if i == 5 then TimeOfDayChanged(ToStr(v))
    else if i == 6 then WeatherConditionChanged(ToStr(v))
    else if i == 7 then ModeChanged(ToStr(v))
    else SystemStateChanged(ToStr(v))
  }

  /** Whether route `i` applies: its topic, with its key present in the data. */
  predicate RouteMatches(i: nat, topic: string, data: map<string, Value>)
    requires i < |Routes|
  {
    topic == Routes[i].0 && Routes[i].1 in data
  }

  /** The first route at or after `from` that applies, if any. */
  function FirstRoute(topic: string, data: map<string, Value>, from: nat): (r: Option<nat>)
    requires from <= |Routes|
    ensures r.Some? ==> from <= r.value < |Routes| && RouteMatches(r.value, topic, data)
    ensures r.Some? ==> forall j :: from <= j < r.value ==> !RouteMatches(j, topic, data)
    ensures r.None? ==> forall j :: from <= j < |Routes| ==> !RouteMatches(j, topic, data)
    decreases |Routes| - from
  {
    if from == |Routes| then None
    else if RouteMatches(from, topic, data) then Some(from)
    else FirstRoute(topic, data, from + 1)
  }

  /** `publish`: the generic event, then the signal of the first matching branch of the chain, if any. */
  function Publish(topic: string, data: map<string, Value>): (events: seq<Event>)
    ensures 1 <= |events| <= 2 && events[0] == EventReceived(topic, data)
  {
    [EventReceived(topic, data)] +
    (if topic == "light/level" && "level" in data then [LightLevelChanged(ToReal(data["level"]))]
     else if topic == "temperature" && "celsius" in data then [TemperatureChanged(ToReal(data["celsius"]))]
     else if topic == "motion" && "detected" in data then [MotionDetected(ToBool(data["detected"]))]
     else if topic == "proximity" && "distance" in data then [ProximityChanged(ToReal(data["distance"]))]
     else if topic == "sound/level" && "level" in data then [AmbientSoundLevelChanged(ToReal(data["level"]))]
     else if topic == "time/period" && "period" in data then [TimeOfDayChanged(ToStr(data["period"]))]
     else if topic == "weather/condition" && "condition" in data then [WeatherConditionChanged(ToStr(data["condition"]))]
     else if topic == "system/mode" && "mode" in data then [ModeChanged(ToStr(data["mode"]))]
     else if topic == "system/state" && "state" in data then [SystemStateChanged(ToStr(data["state"]))]
     else [])
  }

  /**
   * The if/else-if chain is the routing table read first match first: a
   * specific signal is emitted exactly when some route applies, and it is
   * the first applicable route's signal with its key's value.
   */
  lemma PublishFollowsRoutes(topic: string, data: map<string, Value>)
    ensures FirstRoute(topic, data, 0).None? ==> Publish(topic, data) == [EventReceived(topic, data)]
    ensures FirstRoute(topic, data, 0).Some? ==>
      var i := FirstRoute(topic, data, 0).value;
      Publish(topic, data) == [EventReceived(topic, data), RouteSignal(i, data[Routes[i].1])]
  {
    var r := FirstRoute(topic, data, 0);
    if r.None? {
      assert !RouteMatches(0, topic, data) && !RouteMatches(1, topic, data) && !RouteMatches(2, topic, data);
      assert !RouteMatches(3, topic, data) && !RouteMatches(4, topic, data) && !RouteMatches(5, topic, data);
      assert !RouteMatches(6, topic, data) && !RouteMatches(7, topic, data) && !RouteMatches(8, topic, data);
    } else {
      var i := r.value;
      assert forall j :: 0 <= j < i ==> !RouteMatches(j, topic, data);
      if i >= 1 { assert !RouteMatches(0, topic, data); }
      if i >= 2 { assert !RouteMatches(1, topic, data); }
      if i >= 3 { assert !RouteMatches(2, topic, data); }
      if i >= 4 { assert !RouteMatches(3, topic, data); }
      if i >= 5 { assert !RouteMatches(4, topic, data); }
      if i >= 6 { assert !RouteMatches(5, topic, data); }
      if i >= 7 { assert !RouteMatches(6, topic, data); }
      if i >= 8 { assert !RouteMatches(7, topic, data); }
    }
  }

  /** A known topic without its key gets only the generic event. */
  lemma MissingKeyOnlyGeneric(topic: string, data: map<string, Value>, i: nat)
    requires i < |Routes| && topic == Routes[i].0 && Routes[i].1 !in data
    ensures Publish(topic, data) == [EventReceived(topic, data)]
  {
    PublishFollowsRoutes(topic, data);
  }

  /** A temperature reading is emitted as its value read as a real number, whatever it holds. */
  lemma TemperatureRouted(data: map<string, Value>)
    requires "celsius" in data
    ensures Publish("temperature", data) == [EventReceived("temperature", data), TemperatureChanged(ToReal(data["celsius"]))]
  {
  }

  /** A numeric reading sent as integer text arrives as that number. */
  lemma NumberTextConverted(n: int)
    requires InLongLong(n)
    ensures Publish("temperature", map["celsius" := Str(ToStr(Int(n)))])
         == [EventReceived("temperature", map["celsius" := Str(ToStr(Int(n)))]), TemperatureChanged(n as real)]
  {
    TemperatureRouted(map["celsius" := Str(ToStr(Int(n)))]);
    RealFromNumberText(n);
  }

  /** A numeric reading sent as a flag arrives as 1 or 0. */
  lemma FlagConverted(b: bool)
    ensures Publish("light/level", map["level" := Bool(b)])
         == [EventReceived("light/level", map["level" := Bool(b)]), LightLevelChanged(if b then 1.0 else 0.0)]
  {
  }

  /** A numeric reading sent as text that is no decimal arrives as 0. */
  lemma NonNumberTextIsZero()
    ensures Publish("proximity", map["distance" := Str("near")])
         == [EventReceived("proximity", map["distance" := Str("near")]), ProximityChanged(0.0)]
  {
    assert Trimmed("near") == "near";
    NoPointFound("near");
    assert !AllDigits("near");
  }

  /** `publishString`: the text wrapped as {"message": text} and published. */
  function PublishString(topic: string, message: string): (events: seq<Event>)
    ensures events == [EventReceived(topic, map["message" := Str(message)])]
  {
    Publish(topic, map["message" := Str(message)])
  }
}
