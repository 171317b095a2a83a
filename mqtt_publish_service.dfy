/*
 * The backend's MQTT publisher: a command for a device goes out on
 * "/devices/<id>/command/<command>" with the payload serialised to JSON.
 * The serialiser and the gateway are foreign; their outcomes are inputs
 * here (`serialized` is None when serialisation throws, `delivered` is
 * false when the gateway throws).
 */
module MqttPublishService {
  import opened Common
  import opened BackendDomain
  import MqttSubscribeService

  /** `publishCommand`'s outcome: the message handed to the gateway, or the error code thrown. */
  datatype PublishOutcome =
    | Published(topic: string, payload: string)
    | Thrown(code: ErrorCode)

  /** `String.format("/devices/%s/command/%s", deviceUniqueId, command)`. */
  function CommandTopic(deviceUniqueId: string, command: string): (topic: string)
    ensures |topic| == |"/devices/"| + |deviceUniqueId| + |"/command/"| + |command|
    ensures IsPrefix("/devices/" + deviceUniqueId + "/command/", topic)
    ensures topic[|topic| - |command|..] == command
  {
    var topic := "/devices/" + deviceUniqueId + "/command/" + command;
    assert topic[..|"/devices/" + deviceUniqueId + "/command/"|] == "/devices/" + deviceUniqueId + "/command/";
    topic
  }

  /**
   * For an id and a non-empty command without '/', the topic has exactly
   * five parts with "command" at index 3, and reads back as (id, command).
   */
  lemma CommandTopicParts(deviceUniqueId: string, command: string)
    requires '/' !in deviceUniqueId && '/' !in command && command != ""
    ensures JavaSplit(CommandTopic(deviceUniqueId, command), '/') == ["", "devices", deviceUniqueId, "command", command]
    ensures MqttSubscribeService.ParseTopic(CommandTopic(deviceUniqueId, command), "command") == Some((deviceUniqueId, command))
  {
    assert CommandTopic(deviceUniqueId, command) == "" + "/" + "devices" + "/" + deviceUniqueId + "/" + "command" + "/" + command;
    MqttSubscribeService.FiveParts("", "devices", deviceUniqueId, "command", command);
  }

  /**
   * `publishCommand` with its private `publish`: a serialisation failure is
   * thrown as INTERNAL_SERVER_ERROR; a gateway failure as
   * MQTT_PUBLISH_FAILED (a CustomException, which the serialisation catch
   * does not intercept); otherwise the JSON goes out on the command topic.
   */
  function PublishCommand(deviceUniqueId: string, command: string, serialized: Option<string>, delivered: bool): (r: PublishOutcome)
    ensures r.Published? <==> serialized.Some? && delivered
    ensures r.Published? ==> r == Published(CommandTopic(deviceUniqueId, command), serialized.value)
    ensures serialized.None? ==> r == Thrown(INTERNAL_SERVER_ERROR)
    ensures serialized.Some? && !delivered ==> r == Thrown(MQTT_PUBLISH_FAILED)
  {
    match serialized
    case None => Thrown(INTERNAL_SERVER_ERROR)
    case Some(json) =>
      if delivered then Published(CommandTopic(deviceUniqueId, command), json)
      else Thrown(MQTT_PUBLISH_FAILED)
  }

  /** Either failure reaches the client as an HTTP 500, and the two are told apart by their codes. */
  lemma PublishFailuresAre500(deviceUniqueId: string, command: string, serialized: Option<string>, delivered: bool)
    requires PublishCommand(deviceUniqueId, command, serialized, delivered).Thrown?
    ensures Status(PublishCommand(deviceUniqueId, command, serialized, delivered).code) == 500
    ensures PublishCommand(deviceUniqueId, command, serialized, delivered).code == INTERNAL_SERVER_ERROR
      <==> serialized.None?
  {
  }
}
