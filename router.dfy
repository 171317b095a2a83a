/*
 * The device's screen router: the current screen and its parameters, a
 * stack of previous screens, and the mode report sent over MQTT whenever a
 * mode screen becomes current.
 */
module Router {
  import opened Common

  /** The screens that are device modes. */
  const ModeScreens: set<string> := {"menu", "custom", "auto", "privacy", "glass"}

  /** The mode names the backend knows (its DeviceMode values). */
  const DeviceModes: set<string> := {"MENU_MODE", "CUSTOM_MODE", "AUTO_MODE", "PRIVACY_MODE", "GLASS_MODE"}

  /** `Router::getModeName`: the mode a screen stands for, "" for a screen that is not a mode. */
  function ModeName(screen: string): (r: string)
    ensures r != "" <==> screen in ModeScreens
    ensures r != "" ==> r in DeviceModes
  {
    if screen == "menu" then "MENU_MODE"
    else if screen == "custom" then "CUSTOM_MODE"
    else if screen == "auto" then "AUTO_MODE"
    else if screen == "privacy" then "PRIVACY_MODE"
    else if screen == "glass" then "GLASS_MODE"
    else ""
  }

  /** Distinct mode screens report distinct modes. */
  lemma ModeNameInjective(a: string, b: string)
    requires ModeName(a) != "" && ModeName(a) == ModeName(b)
    ensures a == b
  {
  }

  /** `/devices/<id>/status/mode`, the topic of the mode report. */
  function ModeStatusTopic(deviceId: string): string
  {
    "/devices/" + deviceId + "/status/mode"
  }

  datatype HistoryEntry = HistoryEntry(screen: string, params: map<string, Value>)

  datatype Publication = Publication(topic: string, payload: map<string, Value>, qos: int)

  datatype Signal =
    | ScreenChanged(screen: string, params: map<string, Value>)
    | HistoryChanged
    | BackPressed

  /** The device's MQTT client as the router sees it: a connection flag and what was published. */
  class MqttClient {
    var connected: bool
    var published: seq<Publication>

    constructor(connected: bool)
      ensures this.connected == connected && published == []
    {
      this.connected := connected;
      published := [];
    }
  }

  class Router {
    var currentScreen: string
    var currentParams: map<string, Value>
    /** The history stack, top last. */
    var history: seq<HistoryEntry>
    var mqttClient: MqttClient?
    var deviceId: string
    var signals: seq<Signal>

    constructor()
      ensures currentScreen == "" && currentParams == map[] && history == []
      ensures mqttClient == null && deviceId == "" && signals == []
    {
      currentScreen := "";
      currentParams := map[];
      history := [];
      mqttClient := null;
      deviceId := "";
      signals := [];
    }

    /** `canGoBack`. */
    function CanGoBack(): bool
      reads this
    {
      |history| > 0
    }

    /**
     * What a mode report for `screen` publishes: nothing without a client, a
     * device id, a mode name or a connection; otherwise the mode name on the
     * device's mode topic at QoS 1.
     */
    function ModeReport(screen: string): (r: Option<Publication>)
      reads this, mqttClient
      ensures r.Some? <==> mqttClient != null && deviceId != "" && screen in ModeScreens && mqttClient.connected
      ensures r.Some? ==>
        (r.value.topic == ModeStatusTopic(deviceId) && r.value.qos == 1
         && r.value.payload == map["status" := Str(ModeName(screen))])
    {
      if mqttClient == null || deviceId == "" then None
      else if ModeName(screen) == "" then None
      else if !mqttClient.connected then None
      else Some(Publication(ModeStatusTopic(deviceId), map["status" := Str(ModeName(screen))], 1))
    }

    /** `setMqttClient`. */
    method SetMqttClient(client: MqttClient?, id: string)
      modifies this
      ensures mqttClient == client && deviceId == id
      ensures currentScreen == old(currentScreen) && currentParams == old(currentParams)
      ensures history == old(history) && signals == old(signals)
    {
      mqttClient := client;
      deviceId := id;
    }

    /** `publishModeStatus`. */
    method PublishModeStatus(screen: string)
      modifies mqttClient
      ensures mqttClient != null ==> mqttClient.published == old(mqttClient.published) + OptionToSeq(old(ModeReport(screen)))
    {
      if mqttClient == null || deviceId == "" {
        return;
      }
      var modeName := ModeName(screen);
      if modeName == "" {
        return;
      }
      if !mqttClient.connected {
        return;
      }
      mqttClient.published := mqttClient.published + [Publication(ModeStatusTopic(deviceId), map["status" := Str(modeName)], 1)];
    }

    /**
     * `navigateTo`: moving to the current screen does nothing; otherwise a
     * non-empty current screen is pushed with its parameters, and the new
     * screen becomes current.
     */
    method NavigateTo(screen: string, params: map<string, Value>)
      modifies this, mqttClient
      ensures mqttClient == old(mqttClient) && deviceId == old(deviceId)
      ensures screen == old(currentScreen) ==>
        currentParams == old(currentParams) && history == old(history) && signals == old(signals)
        && (mqttClient != null ==> mqttClient.published == old(mqttClient.published))
      ensures screen != old(currentScreen) ==>
        currentScreen == screen && currentParams == params
        && history == old(history) + (if old(currentScreen) != "" then [HistoryEntry(old(currentScreen), old(currentParams))] else [])
        && signals == old(signals) + (if old(currentScreen) != "" then [HistoryChanged] else []) + [ScreenChanged(screen, params)]
        && (mqttClient != null ==> mqttClient.published == old(mqttClient.published) + OptionToSeq(old(ModeReport(screen))))
      ensures currentScreen == screen
    {
      if screen == currentScreen {
        return;
      }
      if currentScreen != "" {
        history := history + [HistoryEntry(currentScreen, currentParams)];
        signals := signals + [HistoryChanged];
      }
      currentScreen := screen;
      currentParams := params;
      signals := signals + [ScreenChanged(screen, params)];
      PublishModeStatus(screen);
    }

    /** `goBack`: pop the top entry and make it current; nothing happens on an empty history. */
    method GoBack()
      modifies this, mqttClient
      ensures mqttClient == old(mqttClient) && deviceId == old(deviceId)
      ensures |old(history)| == 0 ==>
        currentScreen == old(currentScreen) && currentParams == old(currentParams)
        && history == old(history) && signals == old(signals)
        && (mqttClient != null ==> mqttClient.published == old(mqttClient.published))
      ensures |old(history)| > 0 ==>
        var top := old(history)[|old(history)| - 1];
        currentScreen == top.screen && currentParams == top.params
        && history == old(history)[..|old(history)| - 1]
        && signals == old(signals) + [ScreenChanged(top.screen, top.params), HistoryChanged, BackPressed]
        && (mqttClient != null ==> mqttClient.published == old(mqttClient.published) + OptionToSeq(old(ModeReport(top.screen))))
    {
      if |history| == 0 {
        return;
      }
      var entry := history[|history| - 1];
      history := history[..|history| - 1];
      currentScreen := entry.screen;
      currentParams := entry.params;
      signals := signals + [ScreenChanged(currentScreen, currentParams), HistoryChanged, BackPressed];
      PublishModeStatus(currentScreen);
    }

    /** `clearHistory`. */
    method ClearHistory()
      modifies this
      ensures history == [] && !CanGoBack()
      ensures currentScreen == old(currentScreen) && currentParams == old(currentParams)
      ensures signals == old(signals) + [HistoryChanged]
      ensures mqttClient == old(mqttClient) && deviceId == old(deviceId)
    {
      history := [];
      signals := signals + [HistoryChanged];
    }

    /** `replace`: install a screen without touching the history. */
    method Replace(screen: string, params: map<string, Value>)
      modifies this, mqttClient
      ensures currentScreen == screen && currentParams == params && history == old(history)
      ensures signals == old(signals) + [ScreenChanged(screen, params)]
      ensures mqttClient == old(mqttClient) && deviceId == old(deviceId)
      ensures mqttClient != null ==> mqttClient.published == old(mqttClient.published) + OptionToSeq(old(ModeReport(screen)))
    {
      currentScreen := screen;
      currentParams := params;
      signals := signals + [ScreenChanged(screen, params)];
      PublishModeStatus(screen);
    }
  }

  /**
   * Going to another screen and coming back restores the screen, its
   * parameters and the history, when the starting screen was not empty.
   */
  method NavigateThenGoBack(router: Router, screen: string, params: map<string, Value>)
    requires router.currentScreen != "" && router.currentScreen != screen
    modifies router, router.mqttClient
    ensures router.currentScreen == old(router.currentScreen)
    ensures router.currentParams == old(router.currentParams)
    ensures router.history == old(router.history)
  {
    router.NavigateTo(screen, params);
    router.GoBack();
  }
}
