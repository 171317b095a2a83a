/*
 * The backend's MQTT subscriber: a status or request topic is split on '/'
 * the way Java's `String.split` does, checked for five parts with the kind
 * at index 3, and dispatched on the device id (index 2) and the type
 * (index 4). Failures of the downstream services are logged, never thrown.
 */
module MqttSubscribeService {
  import opened Common
  import AlarmManager

  /** What handling one message does, in order. */
  datatype Effect =
    | UpdateDeviceStatus(deviceUniqueId: string, statusType: string, payload: string)
    | PublishAlarmList(deviceUniqueId: string)
    | WarnRejectedTopic(topic: string)
    | WarnUnknownRequest(requestType: string)
    | ErrorLogged(topic: string)

  /**
   * The shape check both handlers share: exactly five '/'-separated parts
   * with `kind` at index 3; then the device id and the type, parts 2 and 4.
   */
  function ParseTopic(topic: string, kind: string): (r: Option<(string, string)>)
    ensures var parts := JavaSplit(topic, '/');
      r.Some? <==> |parts| == 5 && parts[3] == kind
    ensures r.Some? ==> r.value == (JavaSplit(topic, '/')[2], JavaSplit(topic, '/')[4])
  {
    var parts := JavaSplit(topic, '/');
    if |parts| != 5 || parts[3] != kind then None else Some((parts[2], parts[4]))
  }

  /** Five parts joined with '/' split back into exactly those parts when the last is non-empty. */
  lemma FiveParts(a: string, b: string, id: string, kind: string, t: string)
    requires '/' !in a && '/' !in b && '/' !in id && '/' !in kind && '/' !in t
    requires t != ""
    ensures JavaSplit(a + "/" + b + "/" + id + "/" + kind + "/" + t, '/') == [a, b, id, kind, t]
  {
    var parts := [a, b, id, kind, t];
    var s := a + "/" + b + "/" + id + "/" + kind + "/" + t;
    assert Join(parts, "/") == s by {
      assert Join(parts[4..], "/") == t;
      assert Join(parts[3..], "/") == kind + "/" + t;
      assert Join(parts[2..], "/") == id + "/" + kind + "/" + t;
      assert Join(parts[1..], "/") == b + "/" + id + "/" + kind + "/" + t;
    }
    assert '/' in s by {
      assert s[|a|] == '/';
    }
    SplitAllJoin(parts, '/');
  }

  /**
   * Any topic of the form A/B/ID/KIND/T parses to (ID, T), whatever A and B
   * are: only the part count and part 3 are checked.
   */
  lemma ParseBuiltTopic(a: string, b: string, id: string, kind: string, t: string)
    requires '/' !in a && '/' !in b && '/' !in id && '/' !in kind && '/' !in t
    requires t != ""
    ensures ParseTopic(a + "/" + b + "/" + id + "/" + kind + "/" + t, kind) == Some((id, t))
    ensures forall other :: other != kind ==>
      ParseTopic(a + "/" + b + "/" + id + "/" + kind + "/" + t, other).None?
  {
    FiveParts(a, b, id, kind, t);
  }

  /**
   * A topic that ends in '/' after the kind has only four parts (the
   * trailing empty part is dropped) and is rejected.
   */
  lemma TrailingSlashRejected(id: string, kind: string)
    requires '/' !in id && '/' !in kind && kind != ""
    ensures JavaSplit("/devices/" + id + "/" + kind + "/", '/') == ["", "devices", id, kind]
    ensures ParseTopic("/devices/" + id + "/" + kind + "/", kind).None?
  {
    var parts := ["", "devices", id, kind, ""];
    var s := "/devices/" + id + "/" + kind + "/";
    assert Join(parts[3..], "/") == kind + "/";
    assert Join(parts[2..], "/") == id + "/" + kind + "/";
    assert Join(parts[1..], "/") == "devices/" + id + "/" + kind + "/";
    assert Join(parts, "/") == s;
    SplitAllJoin(parts, '/');
    assert s[0] == '/';
    assert parts[..4] == ["", "devices", id, kind];
  }

  /**
   * `handleStatusMessage`: a topic of the wrong shape is logged and
   * dropped; otherwise the device's status is updated from the payload,
   * and a failure of that update (`updateFails`) is logged after it.
   */
  function HandleStatusMessage(topic: string, payload: string, updateFails: bool): (effects: seq<Effect>)
    ensures ParseTopic(topic, "status").None? ==> effects == [WarnRejectedTopic(topic)]
    ensures ParseTopic(topic, "status").Some? ==>
      var (id, statusType) := ParseTopic(topic, "status").value;
      |effects| >= 1 && effects[0] == UpdateDeviceStatus(id, statusType, payload) &&
      effects[1..] == (if updateFails then [ErrorLogged(topic)] else [])
  {
    match ParseTopic(topic, "status")
    case None => [WarnRejectedTopic(topic)]
    case Some((id, statusType)) =>
      [UpdateDeviceStatus(id, statusType, payload)] + (if updateFails then [ErrorLogged(topic)] else [])
  }

  /**
   * `handleRequestMessage`: a topic of the wrong shape is logged and
   * dropped; a request of type "alarms" has the device's alarm list
   * published (a failure of that is logged after it); any other type is
   * logged.
   */
  function HandleRequestMessage(topic: string, payload: string, publishFails: bool): (effects: seq<Effect>)
    ensures ParseTopic(topic, "request").None? ==> effects == [WarnRejectedTopic(topic)]
    ensures ParseTopic(topic, "request").Some? && ParseTopic(topic, "request").value.1 == "alarms" ==>
      |effects| >= 1 && effects[0] == PublishAlarmList(ParseTopic(topic, "request").value.0) &&
      effects[1..] == (if publishFails then [ErrorLogged(topic)] else [])
    ensures ParseTopic(topic, "request").Some? && ParseTopic(topic, "request").value.1 != "alarms" ==>
      effects == [WarnUnknownRequest(ParseTopic(topic, "request").value.1)]
  {
    match ParseTopic(topic, "request")
    case None => [WarnRejectedTopic(topic)]
    case Some((id, requestType)) =>
      if requestType == "alarms" then
        [PublishAlarmList(id)] + (if publishFails then [ErrorLogged(topic)] else [])
      else [WarnUnknownRequest(requestType)]
  }

  /** A handled message only ever publishes the alarm list of the device named in its topic. */
  lemma RequestPublishesOnlyNamedDevice(topic: string, payload: string, publishFails: bool, id: string)
    requires PublishAlarmList(id) in HandleRequestMessage(topic, payload, publishFails)
    ensures ParseTopic(topic, "request") == Some((id, "alarms"))
  {
  }

  /**
   * The request the device sends for its alarm list ("/devices/<id>/request/alarms")
   * is answered with that device's alarm list.
   */
  lemma DeviceAlarmRequestHandled(id: string, payload: string)
    requires '/' !in id
    ensures HandleRequestMessage(AlarmManager.RequestAlarmsTopic(id), payload, false) == [PublishAlarmList(id)]
  {
    RequestTopicParts(id);
    ParseBuiltTopic("", "devices", id, "request", "alarms");
  }

  /** The alarm-request topic is the five parts "", "devices", the id, "request" and "alarms". */
  lemma RequestTopicParts(id: string)
    ensures AlarmManager.RequestAlarmsTopic(id) == "" + "/" + "devices" + "/" + id + "/" + "request" + "/" + "alarms"
  {
    var front, back := "/devices/", "/request/alarms";
    assert front == "" + "/" + "devices" + "/";
    assert back == "/" + "request" + "/" + "alarms";
    assert AlarmManager.RequestAlarmsTopic(id) == front + id + back;
    calc {
      front + id + back;
      ("" + "/" + "devices" + "/" + id) + ("/" + "request" + "/" + "alarms");
      ("" + "/" + "devices" + "/" + id + "/") + ("request" + "/" + "alarms");
      ("" + "/" + "devices" + "/" + id + "/" + "request") + ("/" + "alarms");
      "" + "/" + "devices" + "/" + id + "/" + "request" + "/" + "alarms";
    }
  }
}
