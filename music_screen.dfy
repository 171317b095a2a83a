/*
 * The app's music tab: the play/pause button on each track of the music
 * list, which points the user's first device at a track or stops it, and
 * the modal that registers a new track.
 */
module MusicScreen {
  import opened Common
  import DeviceApi

  /** A track of the music list. */
  datatype Music = Music(musicId: int, musicName: string, musicUrl: string)

  /** A list item is shown as playing exactly when it is the device's current track. */
  predicate IsActive(device: DeviceApi.DeviceDetail, track: Music)
  {
    device.musicId == Some(track.musicId)
  }

  /**
   * `handlePlayPause`: nothing without a device; the device's current
   * track is stopped (music null); any other track is started.
   */
  function PlayPause(device: Option<DeviceApi.DeviceDetail>, track: Music): (r: Option<(int, Option<int>)>)
    ensures r.None? <==> device.None?
    ensures r.Some? ==> r.value.0 == device.value.deviceId
    ensures r.Some? ==> (r.value.1.None? <==> IsActive(device.value, track))
    ensures r.Some? && r.value.1.Some? ==> r.value.1.value == track.musicId
  {
    if device.None? then None
    else if device.value.musicId == Some(track.musicId) then Some((device.value.deviceId, None))
    else Some((device.value.deviceId, Some(track.musicId)))
  }

  /**
   * After the optimistic update for a play/pause press, the pressed track's
   * item shows the opposite state on the device, and no other device
   * changes.
   */
  lemma PlayPauseFlips(list: seq<DeviceApi.DeviceDetail>, k: int, track: Music)
    requires 0 <= k < |list|
    ensures var r := PlayPause(Some(list[k]), track).value;
      var updated := DeviceApi.WithMusic(list, r.0, r.1);
      IsActive(updated[k], track) == !IsActive(list[k], track) &&
      forall j :: 0 <= j < |list| && list[j].deviceId != list[k].deviceId ==> updated[j] == list[j]
  {
  }

  /** JavaScript `!s.trim()`: nothing but white space. */
  predicate TrimsEmpty(s: string)
  {
    forall i :: 0 <= i < |s| ==> IsJsWhitespace(s[i])
  }

  /** The registration request: the name as typed, the URL in double quotes, registered by a user. */
  datatype Registration = Registration(musicName: string, musicUrl: string, registrantType: string)

  /** The URL as sent: wrapped in double quotes. */
  function QuotedUrl(url: string): (r: string)
    ensures |r| == |url| + 2 && r[0] == '"' && r[|r| - 1] == '"' && r[1..|r| - 1] == url
  {
    "\"" + url + "\""
  }

  /** The alert titles the modal shows. */
  const InputErrorTitle := "입력 오류"
  const SuccessTitle := "성공"
  const FailureTitle := "실패"

  class RegisterModal {
    var visible: bool
    var musicName: string
    var musicUrl: string
    /** Registrations sent, in order. */
    var registrations: seq<Registration>
    /** Titles of the alerts shown, in order. */
    var alerts: seq<string>

    constructor ()
      ensures !visible && musicName == "" && musicUrl == "" && registrations == [] && alerts == []
    {
      visible := false;
      musicName := "";
      musicUrl := "";
      registrations := [];
      alerts := [];
    }

    /**
     * `handleRegisterMusic`: a blank name or URL is refused with an input
     * alert and nothing is sent; otherwise one registration is sent, and
     * on success the modal closes and both fields are emptied, while a
     * failure only alerts and keeps the form.
     */
    method HandleRegisterMusic(succeeded: bool)
      modifies this
      ensures TrimsEmpty(old(musicName)) || TrimsEmpty(old(musicUrl)) ==>
        registrations == old(registrations) && alerts == old(alerts) + [InputErrorTitle] &&
        visible == old(visible) && musicName == old(musicName) && musicUrl == old(musicUrl)
      ensures !TrimsEmpty(old(musicName)) && !TrimsEmpty(old(musicUrl)) ==>
        registrations == old(registrations) + [Registration(old(musicName), QuotedUrl(old(musicUrl)), "USER")] &&
        alerts == old(alerts) + [if succeeded then SuccessTitle else FailureTitle] &&
        (succeeded ==> !visible && musicName == "" && musicUrl == "") &&
        (!succeeded ==> visible == old(visible) && musicName == old(musicName) && musicUrl == old(musicUrl))
    {
      if TrimsEmpty(musicName) || TrimsEmpty(musicUrl) {
        alerts := alerts + [InputErrorTitle];
        return;
      }
      registrations := registrations + [Registration(musicName, QuotedUrl(musicUrl), "USER")];
      if succeeded {
        alerts := alerts + [SuccessTitle];
        visible := false;
        musicName := "";
        musicUrl := "";
      } else {
        alerts := alerts + [FailureTitle];
      }
    }
  }
}
