/*
 * The device's configuration: display, device id, MQTT broker, the weather
 * and Spotify API settings, and the background music per mode. Defaults come
 * first; a JSON configuration file then overwrites, key by key, whatever it
 * names.
 *
 * The file system is outside the model: what `load` finds is a `LoadInput`
 * parameter, and `save` returns the JSON object it would write.
 */
module AppConfig {
  import opened Common

  /** A C++ `int`: the 32-bit signed range. */
  type Int32 = x: int | -0x8000_0000 <= x < 0x8000_0000

  /**
   * `QJsonValue::toInt()`: a whole number that fits in an `int` converts;
   * anything else (a bool too, or a number out of range) gives 0.
   */
  function JsonInt(v: Value): (r: Int32)
    ensures v.Int? && -0x8000_0000 <= v.i < 0x8000_0000 ==> r == v.i
    ensures r != 0 ==> v.Int? && v.i == r
  {
    if v.Int? && -0x8000_0000 <= v.i < 0x8000_0000 then v.i else 0
  }

  /** `QJsonValue::toBool()`: a bool converts, anything else (a number too) gives false. */
  function JsonBool(v: Value): (r: bool)
    ensures r <==> v == Bool(true)
  {
    v.Bool? && v.b
  }

  /** `QJsonValue::toString()`: a string converts, anything else (a number too) gives "". */
  function JsonStr(v: Value): (r: string)
    ensures v.Str? ==> r == v.s
    ensures !v.Str? ==> r == ""
  {
    if v.Str? then v.s else ""
  }

  /** A text entry of a JSON object: its value as text when the key is present, `current` otherwise. */
  function StrField(obj: map<string, Value>, key: string, current: string): (r: string)
    ensures key !in obj ==> r == current
    ensures key in obj ==> r == JsonStr(obj[key])
  {
    if key in obj then JsonStr(obj[key]) else current
  }

  /** A number entry of a JSON object: its value as a number when the key is present, `current` otherwise. */
  function IntField(obj: map<string, Value>, key: string, current: Int32): (r: Int32)
    ensures key !in obj ==> r == current
    ensures key in obj ==> r == JsonInt(obj[key])
  {
    if key in obj then JsonInt(obj[key]) else current
  }

  /** A flag entry of a JSON object: its value as a flag when the key is present, `current` otherwise. */
  function BoolField(obj: map<string, Value>, key: string, current: bool): (r: bool)
    ensures key !in obj ==> r == current
    ensures key in obj ==> r == JsonBool(obj[key])
  {
    if key in obj then JsonBool(obj[key]) else current
  }

  /** The object under `key`, or None when the key is absent. */
  function Section(obj: map<string, Value>, key: string): (r: Option<map<string, Value>>)
    ensures r.Some? <==> key in obj
  {
    if key in obj then Some(ToObject(obj[key])) else None
  }

  datatype Display = Display(screenWidth: Int32, screenHeight: Int32, theme: string, gestureEnabled: bool)
  datatype Mqtt = Mqtt(host: string, port: Int32, useTls: bool, username: string, password: string)
  datatype Weather = Weather(apiKey: string, apiUrl: string)
  datatype Spotify = Spotify(clientId: string, clientSecret: string, redirectUri: string)
  /** The glass-mode track and the per-location tracks of auto mode. */
  datatype Music = Music(glass: string, auto: map<string, string>)

  /** The configured settings, grouped as the configuration file groups them. */
  datatype Settings = Settings(
    display: Display, deviceUniqueId: string, mqtt: Mqtt, weather: Weather, spotify: Spotify, music: Music)

  const DefaultWeatherApiUrl: string := "https://api.openweathermap.org/data/2.5"
  const DefaultSpotifyRedirectUri: string := "http://localhost:8888/callback"

  /**
   * `loadDefaults`: display, MQTT broker and API settings back to their
   * defaults; the device id, the TLS flag and the background music are not
   * among the fields it writes.
   */
  function WithDefaults(s: Settings): (r: Settings)
    ensures r.display == Display(1920, 1080, "dark", true)
    ensures r.mqtt == Mqtt("localhost", 1883, s.mqtt.useTls, "", "")
    ensures r.weather == Weather("", DefaultWeatherApiUrl)
    ensures r.spotify == Spotify("", "", DefaultSpotifyRedirectUri)
    ensures r.deviceUniqueId == s.deviceUniqueId && r.music == s.music
  {
    s.(display := Display(1920, 1080, "dark", true),
       mqtt := s.mqtt.(host := "localhost", port := 1883, username := "", password := ""),
       weather := Weather("", DefaultWeatherApiUrl),
       spotify := Spotify("", "", DefaultSpotifyRedirectUri))
  }

  /** The member initialisers of the class declaration, before the constructor runs `loadDefaults`. */
  const Declared: Settings := Settings(
    Display(1920, 1080, "dark", true), "lumiscape_default",
    Mqtt("localhost", 1883, false, "", ""),
    Weather("", DefaultWeatherApiUrl), Spotify("", "", DefaultSpotifyRedirectUri),
    Music("", map[]))

  /** `loadDefaults` writes exactly the values the declaration already gives. */
  lemma DefaultsMatchDeclaration()
    ensures WithDefaults(Declared) == Declared
  {
  }

  /** The display part of `parseJson`, read from the top-level object. */
  function MergeDisplay(d: Display, json: map<string, Value>): Display
  {
    Display(IntField(json, "screenWidth", d.screenWidth), IntField(json, "screenHeight", d.screenHeight),
            StrField(json, "theme", d.theme), BoolField(json, "gestureEnabled", d.gestureEnabled))
  }

  /** The "mqtt" object of `parseJson`. */
  function MergeMqtt(m: Mqtt, mqtt: map<string, Value>): Mqtt
  {
    Mqtt(StrField(mqtt, "host", m.host), IntField(mqtt, "port", m.port), BoolField(mqtt, "useTls", m.useTls),
         StrField(mqtt, "username", m.username), StrField(mqtt, "password", m.password))
  }

  /** The "weather" object under "apis". */
  function MergeWeather(w: Weather, weather: map<string, Value>): Weather
  {
    Weather(StrField(weather, "apiKey", w.apiKey), StrField(weather, "apiUrl", w.apiUrl))
  }

  /** The "spotify" object under "apis". */
  function MergeSpotify(sp: Spotify, spotify: map<string, Value>): Spotify
  {
    Spotify(StrField(spotify, "clientId", sp.clientId), StrField(spotify, "clientSecret", sp.clientSecret),
            StrField(spotify, "redirectUri", sp.redirectUri))
  }

  /** The per-location music of an "auto" object: every entry, its value read as text. */
  function AutoMusic(auto: map<string, Value>): (r: map<string, string>)
    ensures r.Keys == auto.Keys
    ensures forall k :: k in auto ==> r[k] == JsonStr(auto[k])
  {
    map k | k in auto :: JsonStr(auto[k])
  }

  /**
   * The "backgroundMusic" object of `parseJson`: "glass" overwrites the
   * glass-mode track; "auto" replaces the whole per-location map.
   */
  function MergeMusic(m: Music, music: map<string, Value>): (r: Music)
    ensures "auto" !in music ==> r.auto == m.auto
    ensures "auto" in music ==> r.auto == AutoMusic(ToObject(music["auto"]))
  {
    Music(StrField(music, "glass", m.glass),
          if "auto" in music then AutoMusic(ToObject(music["auto"])) else m.auto)
  }

  /** An optional section merged into its part of the settings; an absent section leaves it. */
  function MergeSection<T>(part: T, section: Option<map<string, Value>>, merge: (T, map<string, Value>) -> T): T
  {
    if section.Some? then merge(part, section.value) else part
  }

  /** `parseJson`: every section, each only where its key is present. */
  function Merged(s: Settings, json: map<string, Value>): (r: Settings)
    ensures "mqtt" !in json ==> r.mqtt == s.mqtt
    ensures "apis" !in json ==> r.weather == s.weather && r.spotify == s.spotify
    ensures "backgroundMusic" !in json ==> r.music == s.music
    ensures "deviceUniqueId" !in json ==> r.deviceUniqueId == s.deviceUniqueId
  {
    var apis := if "apis" in json then ToObject(json["apis"]) else map[];
    Settings(
      MergeDisplay(s.display, json),
      StrField(json, "deviceUniqueId", s.deviceUniqueId),
      MergeSection(s.mqtt, Section(json, "mqtt"), MergeMqtt),
      MergeSection(s.weather, Section(apis, "weather"), MergeWeather),
      MergeSection(s.spotify, Section(apis, "spotify"), MergeSpotify),
      MergeSection(s.music, Section(json, "backgroundMusic"), MergeMusic))
  }

  /** A configuration object that names nothing changes nothing. */
  lemma MergeEmpty(s: Settings)
    ensures Merged(s, map[]) == s
  {
  }

  /** Applying the same configuration object twice is the same as applying it once. */
  lemma MergeIdempotent(s: Settings, json: map<string, Value>)
    ensures Merged(Merged(s, json), json) == Merged(s, json)
  {
  }

  /** The object `save` writes: display, MQTT and API settings; not the device id, the TLS flag or the music. */
  function SavedDocument(s: Settings): (r: map<string, Value>)
    ensures r.Keys == {"screenWidth", "screenHeight", "theme", "gestureEnabled", "mqtt", "apis"}
    ensures "useTls" !in ToObject(r["mqtt"])
  {
    map["screenWidth" := Int(s.display.screenWidth), "screenHeight" := Int(s.display.screenHeight),
        "theme" := Str(s.display.theme), "gestureEnabled" := Bool(s.display.gestureEnabled),
        "mqtt" := Object(map["host" := Str(s.mqtt.host), "port" := Int(s.mqtt.port),
                             "username" := Str(s.mqtt.username), "password" := Str(s.mqtt.password)]),
        "apis" := Object(map[
          "weather" := Object(map["apiKey" := Str(s.weather.apiKey), "apiUrl" := Str(s.weather.apiUrl)]),
          "spotify" := Object(map["clientId" := Str(s.spotify.clientId), "clientSecret" := Str(s.spotify.clientSecret),
                                  "redirectUri" := Str(s.spotify.redirectUri)])])]
  }

  /**
   * Reading back what `save` wrote restores every saved field onto any
   * settings `t`; the fields `save` leaves out keep `t`'s values.
   */
  lemma SaveThenParse(s: Settings, t: Settings)
    ensures Merged(t, SavedDocument(s))
      == s.(deviceUniqueId := t.deviceUniqueId, mqtt := s.mqtt.(useTls := t.mqtt.useTls), music := t.music)
  {
    var doc := SavedDocument(s);
    var apis := ToObject(doc["apis"]);
    assert MergeDisplay(t.display, doc) == s.display;
    assert Section(doc, "mqtt") == Some(ToObject(doc["mqtt"]));
    assert Section(apis, "weather") == Some(ToObject(apis["weather"]));
    assert Section(apis, "spotify") == Some(ToObject(apis["spotify"]));
  }

  /** What `load` finds at the path. */
  datatype LoadInput =
    | CannotOpen
    | NotJson
    | Document(root: Value)

  datatype Signal = ConfigChanged | GestureEnabledChanged | CurrentMediaUrlChanged | CurrentYoutubeUrlChanged

  class Config {
    var settings: Settings
    /** The media and YouTube URLs currently shown; runtime state, never saved. */
    var currentMediaUrl: string
    var currentYoutubeUrl: string
    var signals: seq<Signal>

    /** The constructor: the declared initial values, then `loadDefaults`. */
    constructor()
      ensures settings == WithDefaults(Declared) && settings == Declared
      ensures currentMediaUrl == "" && currentYoutubeUrl == "" && signals == []
    {
      settings := WithDefaults(Declared);
      currentMediaUrl := "";
      currentYoutubeUrl := "";
      signals := [];
      DefaultsMatchDeclaration();
    }

    /** `resetToDefaults`: the defaults over the current settings, then one change notice. */
    method ResetToDefaults()
      modifies this
      ensures settings == WithDefaults(old(settings))
      ensures signals == old(signals) + [ConfigChanged]
      ensures currentMediaUrl == old(currentMediaUrl) && currentYoutubeUrl == old(currentYoutubeUrl)
    {
      settings := WithDefaults(settings);
      signals := signals + [ConfigChanged];
    }

    /**
     * `load`: an unreadable file, a parse error or a root that is not an
     * object gives false and changes nothing; an object is merged and
     * announced.
     */
    method Load(input: LoadInput) returns (ok: bool)
      modifies this
      ensures ok <==> input.Document? && input.root.Object?
      ensures !ok ==> settings == old(settings) && signals == old(signals)
      ensures ok ==> settings == Merged(old(settings), input.root.fields) && signals == old(signals) + [ConfigChanged]
      ensures currentMediaUrl == old(currentMediaUrl) && currentYoutubeUrl == old(currentYoutubeUrl)
    {
      match input {
        case CannotOpen =>
          return false;
        case NotJson =>
          return false;
        case Document(root) =>
          if !root.Object? {
            return false;
          }
          ParseJson(root.fields);
          signals := signals + [ConfigChanged];
          return true;
      }
    }

    /** `save`: the saved object, or None when the file cannot be written; the settings are not changed. */
    method Save(canWrite: bool) returns (ok: bool, written: Option<map<string, Value>>)
      ensures ok == canWrite
      ensures canWrite ==> written == Some(SavedDocument(settings))
      ensures !canWrite ==> written == None
    {
      var json := SavedDocument(settings);
      if !canWrite {
        return false, None;
      }
      return true, Some(json);
    }

    /** `parseJson`: each section only where its key is present. */
    method ParseJson(json: map<string, Value>)
      modifies this
      ensures settings == Merged(old(settings), json)
      ensures signals == old(signals)
      ensures currentMediaUrl == old(currentMediaUrl) && currentYoutubeUrl == old(currentYoutubeUrl)
    {
      settings := settings.(display := MergeDisplay(settings.display, json),
                            deviceUniqueId := StrField(json, "deviceUniqueId", settings.deviceUniqueId));
      if "mqtt" in json {
        settings := settings.(mqtt := MergeMqtt(settings.mqtt, ToObject(json["mqtt"])));
      }
      if "apis" in json {
        var apis := ToObject(json["apis"]);
        if "weather" in apis {
          settings := settings.(weather := MergeWeather(settings.weather, ToObject(apis["weather"])));
        }
        if "spotify" in apis {
          settings := settings.(spotify := MergeSpotify(settings.spotify, ToObject(apis["spotify"])));
        }
      }
      if "backgroundMusic" in json {
        var music := ParseBackgroundMusic(settings.music, ToObject(json["backgroundMusic"]));
        settings := settings.(music := music);
      }
    }

    /** `setGestureEnabled`: a different value is stored and announced. */
    method SetGestureEnabled(enabled: bool)
      modifies this
      ensures settings == old(settings).(display := old(settings.display).(gestureEnabled := enabled))
      ensures signals == old(signals) + (if old(settings.display.gestureEnabled) != enabled then [GestureEnabledChanged] else [])
      ensures currentMediaUrl == old(currentMediaUrl) && currentYoutubeUrl == old(currentYoutubeUrl)
    {
      if settings.display.gestureEnabled != enabled {
        settings := settings.(display := settings.display.(gestureEnabled := enabled));
        signals := signals + [GestureEnabledChanged];
      }
    }

    /** `setCurrentMediaUrl`: a different URL is stored and announced. */
    method SetCurrentMediaUrl(url: string)
      modifies this
      ensures currentMediaUrl == url
      ensures signals == old(signals) + (if old(currentMediaUrl) != url then [CurrentMediaUrlChanged] else [])
      ensures settings == old(settings) && currentYoutubeUrl == old(currentYoutubeUrl)
    {
      if currentMediaUrl != url {
        currentMediaUrl := url;
        signals := signals + [CurrentMediaUrlChanged];
      }
    }

    /** `setCurrentYoutubeUrl`: a different URL is stored and announced. */
    method SetCurrentYoutubeUrl(url: string)
      modifies this
      ensures currentYoutubeUrl == url
      ensures signals == old(signals) + (if old(currentYoutubeUrl) != url then [CurrentYoutubeUrlChanged] else [])
      ensures settings == old(settings) && currentMediaUrl == old(currentMediaUrl)
    {
      if currentYoutubeUrl != url {
        currentYoutubeUrl := url;
        signals := signals + [CurrentYoutubeUrlChanged];
      }
    }
  }

  /** The "backgroundMusic" part of `parseJson`: the glass-mode track, then the per-location map. */
  method ParseBackgroundMusic(current: Music, music: map<string, Value>) returns (r: Music)
    ensures r == MergeMusic(current, music)
  {
    var glass := StrField(music, "glass", current.glass);
    var auto := current.auto;
    if "auto" in music {
      auto := ReadAutoMusic(ToObject(music["auto"]));
    }
    r := Music(glass, auto);
  }

  /** The loop over the "auto" object: the map is cleared, then every entry inserted with its value as text. */
  method ReadAutoMusic(auto: map<string, Value>) returns (music: map<string, string>)
    ensures music == AutoMusic(auto)
  {
    music := map[];
    var rest := auto.Keys;
    while rest != {}
      invariant rest <= auto.Keys
      invariant music.Keys == auto.Keys - rest
      invariant forall k :: k in music ==> music[k] == JsonStr(auto[k])
      decreases rest
    {
      var k :| k in rest;
      music := music[k := JsonStr(auto[k])];
      rest := rest - {k};
    }
  }
}
