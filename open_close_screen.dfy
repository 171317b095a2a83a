/*
 * The app's window-control screen: a sliding pane dragged or set with a
 * slider, each final position sent to the window actuator over Bluetooth LE
 * as the 6-byte command frame in base64 (section 4 of RFC 4648), plus the
 * connect, disconnect and automatic reconnect logic. The Bluetooth stack
 * and the device store are outside the model: connection outcomes and scan
 * results arrive as parameters, and the writes and store updates made are
 * recorded in order.
 */
module OpenCloseScreen {
  import opened Common
  import WindowController

  // ---------------------------------------------------------------------
  // Base64 (section 4 of RFC 4648)
  // ---------------------------------------------------------------------

  /** The base64 alphabet character for a 6-bit value. */
  function SextetChar(n: int): (c: char)
    requires 0 <= n < 64
    ensures c != '='
  {
    if n < 26 then ('A' as int + n) as char
    else if n < 52 then ('a' as int + n - 26) as char
    else if n < 62 then ('0' as int + n - 52) as char
    else if n == 62 then '+' else '/'
  }

  /** The 6-bit value of a base64 alphabet character, None for any other. */
  function SextetValue(c: char): (r: Option<int>)
    ensures r.Some? ==> 0 <= r.value < 64 && SextetChar(r.value) == c
  {
    if 'A' <= c <= 'Z' then Some(c as int - 'A' as int)
    else if 'a' <= c <= 'z' then Some(c as int - 'a' as int + 26)
    else if '0' <= c <= '9' then Some(c as int - '0' as int + 52)
    else if c == '+' then Some(62)
    else if c == '/' then Some(63)
    else None
  }

  /** Each alphabet character reads back as the value it encodes. */
  lemma SextetRoundTrip(n: int)
    requires 0 <= n < 64
    ensures SextetValue(SextetChar(n)) == Some(n)
  {
  }

  /** Three bytes as four characters. */
  function EncodeGroup(a: byte, b: byte, c: byte): (s: string)
    ensures |s| == 4
  {
    [SextetChar(a / 4), SextetChar((a % 4) * 16 + b / 16), SextetChar((b % 16) * 4 + c / 64), SextetChar(c % 64)]
  }

  /** A final one or two bytes as two or three characters padded with '=' to four. */
  function EncodeTail(bytes: seq<byte>): (s: string)
    requires 1 <= |bytes| <= 2
    ensures |s| == 4 && s[3] == '='
  {
    if |bytes| == 1 then [SextetChar(bytes[0] / 4), SextetChar((bytes[0] % 4) * 16), '=', '=']
    else [SextetChar(bytes[0] / 4), SextetChar((bytes[0] % 4) * 16 + bytes[1] / 16), SextetChar((bytes[1] % 16) * 4), '=']
  }

  /**
   * `Buffer.toString('base64')`: each group of three bytes as four
   * characters, then any one or two bytes left as a padded group.
   */
  function Base64(bytes: seq<byte>): (s: string)
    ensures |s| == 4 * ((|bytes| + 2) / 3)
    decreases |bytes|
  {
    if |bytes| == 0 then ""
    else if |bytes| < 3 then EncodeTail(bytes)
    else EncodeGroup(bytes[0], bytes[1], bytes[2]) + Base64(bytes[3..])
  }

  /** Four 6-bit values back to the three bytes they carry. */
  function Combine(w: int, x: int, y: int, z: int): (r: seq<byte>)
    requires 0 <= w < 64 && 0 <= x < 64 && 0 <= y < 64 && 0 <= z < 64
    ensures |r| == 3
  {
    [w * 4 + x / 16, (x % 16) * 16 + y / 4, (y % 4) * 64 + z]
  }

  /** Four characters back to three bytes, None unless all four are alphabet characters. */
  function DecodeGroup(s: string): (r: Option<seq<byte>>)
    requires |s| == 4
    ensures r.Some? ==> |r.value| == 3
  {
    var w, x, y, z := SextetValue(s[0]), SextetValue(s[1]), SextetValue(s[2]), SextetValue(s[3]);
    if w.Some? && x.Some? && y.Some? && z.Some? then Some(Combine(w.value, x.value, y.value, z.value))
    else None
  }

  /** Decoding unpadded base64: every four characters back to three bytes. */
  function Base64Decode(s: string): (r: Option<seq<byte>>)
    ensures |s| == 0 ==> r == Some([])
    decreases |s|
  {
    if |s| == 0 then Some([])
    else if |s| < 4 then None
    else
      var g := DecodeGroup(s[..4]);
      var rest := Base64Decode(s[4..]);
      if g.Some? && rest.Some? then Some(g.value + rest.value) else None
  }

  /** The sextets of three bytes recombine into the same bytes. */
  lemma CombineSplit(a: byte, b: byte, c: byte)
    ensures Combine(a / 4, (a % 4) * 16 + b / 16, (b % 16) * 4 + c / 64, c % 64) == [a, b, c]
  {
    var x := (a % 4) * 16 + b / 16;
    var y := (b % 16) * 4 + c / 64;
    assert x / 16 == a % 4 && x % 16 == b / 16;
    assert y / 4 == b % 16 && y % 4 == c / 64;
  }

  /** One group decodes back to its three bytes. */
  lemma GroupRoundTrip(a: byte, b: byte, c: byte)
    ensures DecodeGroup(EncodeGroup(a, b, c)) == Some([a, b, c])
  {
    var w, x, y, z := a / 4, (a % 4) * 16 + b / 16, (b % 16) * 4 + c / 64, c % 64;
    var g := EncodeGroup(a, b, c);
    assert g[0] == SextetChar(w) && g[1] == SextetChar(x) && g[2] == SextetChar(y) && g[3] == SextetChar(z);
    SextetRoundTrip(w);
    SextetRoundTrip(x);
    SextetRoundTrip(y);
    SextetRoundTrip(z);
    CombineSplit(a, b, c);
  }

  /** Encoding takes the first three bytes as one group and goes on with the rest. */
  lemma EncodeStep(bytes: seq<byte>)
    requires |bytes| >= 3
    ensures Base64(bytes) == EncodeGroup(bytes[0], bytes[1], bytes[2]) + Base64(bytes[3..])
  {
  }

  /** Decoding reads the first four characters as one group and goes on with the rest. */
  lemma DecodeAppend(g: string, rest: string, x: seq<byte>, y: seq<byte>)
    requires |g| == 4 && DecodeGroup(g) == Some(x) && Base64Decode(rest) == Some(y)
    ensures Base64Decode(g + rest) == Some(x + y)
  {
    assert (g + rest)[..4] == g && (g + rest)[4..] == rest;
  }

  lemma Take3(s: seq<byte>)
    requires |s| >= 3
    ensures s[..3] == [s[0], s[1], s[2]]
  {
  }

  lemma GroupNoPadding(a: byte, b: byte, c: byte)
    ensures '=' !in EncodeGroup(a, b, c)
  {
  }

  /** A whole number of groups is encoded without padding. */
  lemma {:induction false} NoPadding(bytes: seq<byte>)
    requires |bytes| % 3 == 0
    ensures '=' !in Base64(bytes)
    decreases |bytes|
  {
    if |bytes| > 0 {
      NoPadding(bytes[3..]);
      EncodeStep(bytes);
      GroupNoPadding(bytes[0], bytes[1], bytes[2]);
    }
  }

  /** Decoding a group the encoder made, followed by more text, starts with the group's bytes. */
  lemma DecodeGroupThen(bytes: seq<byte>, rest: string, tail: seq<byte>)
    requires |bytes| >= 3 && Base64Decode(rest) == Some(tail)
    ensures Base64Decode(EncodeGroup(bytes[0], bytes[1], bytes[2]) + rest) == Some(bytes[..3] + tail)
  {
    Take3(bytes);
    GroupRoundTrip(bytes[0], bytes[1], bytes[2]);
    DecodeAppend(EncodeGroup(bytes[0], bytes[1], bytes[2]), rest, bytes[..3], tail);
  }

  /** A round trip on the bytes after the first group extends to the whole. */
  lemma RoundTripStep(bytes: seq<byte>)
    requires |bytes| >= 3 && Base64Decode(Base64(bytes[3..])) == Some(bytes[3..])
    ensures Base64Decode(Base64(bytes)) == Some(bytes)
  {
    assert bytes[..3] + bytes[3..] == bytes;
    EncodeStep(bytes);
    DecodeGroupThen(bytes, Base64(bytes[3..]), bytes[3..]);
  }

  /** Round trip: a whole number of groups decodes back to the bytes encoded. */
  lemma {:induction false} Base64RoundTrip(bytes: seq<byte>)
    requires |bytes| % 3 == 0
    ensures Base64Decode(Base64(bytes)) == Some(bytes)
    decreases |bytes|
  {
    if |bytes| > 0 {
      Base64RoundTrip(bytes[3..]);
      RoundTripStep(bytes);
    }
  }

  // ---------------------------------------------------------------------
  // The command frame
  // ---------------------------------------------------------------------

  /** JavaScript `Math.round`: the nearest integer, halves rounded up. */
  function Round(x: real): (n: int)
    ensures x - 0.5 < n as real <= x + 0.5
  {
    (x + 0.5).Floor
  }

  /** A number stored in a `Buffer` keeps its low eight bits. */
  function ToByte(n: int): (b: byte)
    ensures 0 <= n < 256 ==> b == n
  {
    n % 256
  }

  /** The frame `writePercentage` builds: 2A 17 10 00 00 and the rounded value. */
  function PercentageFrame(value: real): (frame: seq<byte>)
    ensures |frame| == 6
  {
    [0x2A, 0x17, 0x10, 0x00, 0x00, ToByte(Round(value))]
  }

  /**
   * For a percentage in [0, 100] the app's frame is the command frame the
   * window controller builds for the rounded percentage, and its base64 text
   * is 8 characters with no padding that decode back to the frame.
   */
  lemma FrameMatchesController(value: real)
    requires 0.0 <= value <= 100.0
    ensures 0 <= Round(value) <= 100
    ensures PercentageFrame(value) == WindowController.CommandFrame(Round(value))
    ensures var text := Base64(PercentageFrame(value));
      |text| == 8 && '=' !in text && Base64Decode(text) == Some(PercentageFrame(value))
  {
    NoPadding(PercentageFrame(value));
    Base64RoundTrip(PercentageFrame(value));
  }

  // ---------------------------------------------------------------------
  // The screen
  // ---------------------------------------------------------------------

  const TargetDeviceName := "CLWM-B07"

  /** A device seen by the scan: its id and advertised name (null when it has none). */
  datatype Advert = Advert(id: string, name: Option<string>)

  /** `x` limited to `[0, hi]`, as the two `if`s of the pan handlers. */
  function ClampPosition(x: real, hi: real): (r: real)
    requires hi > 0.0
    ensures 0.0 <= r <= hi
    ensures 0.0 <= x <= hi ==> r == x
  {
    if x < 0.0 then 0.0 else if x > hi then hi else x
  }

  /** The percentage shown for a pane position. */
  function PositionPercentage(position: real, paneWidth: real): (p: real)
    requires paneWidth > 0.0 && 0.0 <= position <= paneWidth
    ensures 0.0 <= p <= 100.0
    ensures position == 0.0 ==> p == 0.0
    ensures position == paneWidth ==> p == 100.0
  {
    var ratio := position / paneWidth;
    assert ratio <= 1.0 by {
      assert ratio * paneWidth == position;
    }
    ratio * 100.0
  }

  /** Where the scan's first matching device is, if any: the first advert named exactly 'CLWM-B07'. */
  function FirstTarget(adverts: seq<Advert>): (i: int)
    ensures -1 <= i < |adverts|
    ensures i == -1 <==> forall j :: 0 <= j < |adverts| ==> adverts[j].name != Some(TargetDeviceName)
    ensures i >= 0 ==> adverts[i].name == Some(TargetDeviceName)
    ensures i >= 0 ==> forall j :: 0 <= j < i ==> adverts[j].name != Some(TargetDeviceName)
  {
    if |adverts| == 0 then -1
    else if adverts[0].name == Some(TargetDeviceName) then 0
    else
      var k := FirstTarget(adverts[1..]);
      if k == -1 then -1 else k + 1
  }

  class Screen {
    /** The pane's width in layout units, fixed by the screen size. */
    const paneWidth: real
    /** The connected device's id (`connectedDevice`). */
    var connected: Option<string>
    /** The percentage shown. */
    var percentage: real
    /** Where the last drag or slide left the pane (`lastPosition.current`). */
    var lastPosition: real
    /** The pane's animated offset (`translateX`). */
    var translateX: real
    /** Whether the Bluetooth scan is running. */
    var scanning: bool
    /** The saved id under 'lastConnectedDeviceId'. */
    var savedId: Option<string>
    /** Frames written, as (device id, base64 text), in order. */
    var writes: seq<(string, string)>
    /** `setOpenPercentage` calls on the device store, in order. */
    var storeUpdates: seq<real>

    ghost predicate Valid()
      reads this
    {
      paneWidth > 0.0 && 0.0 <= lastPosition <= paneWidth
    }

    constructor (paneWidth0: real, savedId0: Option<string>)
      requires paneWidth0 > 0.0
      ensures Valid()
      ensures paneWidth == paneWidth0 && savedId == savedId0
      ensures connected.None? && percentage == 0.0 && lastPosition == 0.0 && translateX == 0.0
      ensures !scanning && writes == [] && storeUpdates == []
    {
      paneWidth := paneWidth0;
      savedId := savedId0;
      connected := None;
      percentage := 0.0;
      lastPosition := 0.0;
      translateX := 0.0;
      scanning := false;
      writes := [];
      storeUpdates := [];
    }

    /**
     * `writePercentage`: nothing without a connected device; otherwise
     * exactly one write of the frame's base64 text. A failed write is only
     * logged, so the outcome of the write changes nothing here.
     */
    method WritePercentage(value: real)
      modifies this`writes
      ensures connected.None? ==> writes == old(writes)
      ensures connected.Some? ==> writes == old(writes) + [(connected.value, Base64(PercentageFrame(value)))]
    {
      if connected.None? {
        return;
      }
      writes := writes + [(connected.value, Base64(PercentageFrame(value)))];
    }

    /** Slider `onValueChange`: only the shown percentage and the pane move; nothing is written. */
    method SliderChange(value: real)
      requires Valid() && 0.0 <= value <= 100.0
      modifies this`percentage, this`lastPosition, this`translateX
      ensures Valid()
      ensures percentage == value && lastPosition == value / 100.0 * paneWidth && translateX == lastPosition
    {
      percentage := value;
      var position := value / 100.0 * paneWidth;
      assert position <= paneWidth by {
        assert value / 100.0 <= 1.0;
      }
      lastPosition := position;
      translateX := position;
    }

    /** Slider `onSlidingComplete`: one write and one store update with the value. */
    method SlidingComplete(value: real)
      modifies this`writes, this`storeUpdates
      ensures connected.None? ==> writes == old(writes)
      ensures connected.Some? ==> writes == old(writes) + [(connected.value, Base64(PercentageFrame(value)))]
      ensures storeUpdates == old(storeUpdates) + [value]
    {
      WritePercentage(value);
      storeUpdates := storeUpdates + [value];
    }

    /**
     * `onPanResponderMove`: the pane follows the drag, clamped to the frame,
     * and the percentage is shown; the last position is kept and nothing is
     * written.
     */
    method PanMove(dx: real)
      requires Valid()
      modifies this`translateX, this`percentage
      ensures Valid()
      ensures translateX == ClampPosition(lastPosition + dx, paneWidth)
      ensures percentage == PositionPercentage(translateX, paneWidth) && 0.0 <= percentage <= 100.0
    {
      var position := ClampPosition(lastPosition + dx, paneWidth);
      translateX := position;
      percentage := PositionPercentage(position, paneWidth);
    }

    /**
     * `onPanResponderRelease`, as written: the clamped final position becomes
     * the last position and its unrounded percentage goes to the store. The
     * handlers are created once, on the first render, so the `writePercentage`
     * they call sees that render's `connectedDevice`, which is null: nothing
     * is written, whatever is connected now.
     */
    method PanRelease(dx: real)
      requires Valid()
      modifies this`lastPosition, this`storeUpdates
      ensures Valid()
      ensures lastPosition == ClampPosition(old(lastPosition) + dx, paneWidth)
      ensures storeUpdates == old(storeUpdates) + [PositionPercentage(lastPosition, paneWidth)]
      ensures writes == old(writes)
    {
      var position := ClampPosition(lastPosition + dx, paneWidth);
      lastPosition := position;
      var p := PositionPercentage(position, paneWidth);
      storeUpdates := storeUpdates + [p];
    }

    /**
     * `onPanResponderRelease` as evidently intended: as above, and the
     * percentage, rounded in the frame, also goes to the device connected
     * now.
     */
    method PanReleaseIntended(dx: real)
      requires Valid()
      modifies this`lastPosition, this`writes, this`storeUpdates
      ensures Valid()
      ensures lastPosition == ClampPosition(old(lastPosition) + dx, paneWidth)
      ensures var p := PositionPercentage(lastPosition, paneWidth);
        storeUpdates == old(storeUpdates) + [p] &&
        (connected.None? ==> writes == old(writes)) &&
        (connected.Some? ==> writes == old(writes) + [(connected.value, Base64(PercentageFrame(p)))])
    {
      var position := ClampPosition(lastPosition + dx, paneWidth);
      lastPosition := position;
      var p := PositionPercentage(position, paneWidth);
      WritePercentage(p);
      storeUpdates := storeUpdates + [p];
    }

    /**
     * `disconnectDevice`: the scan always stops; a connected device is
     * dropped, the pane and percentage go back to 0 and the saved id is
     * removed.
     */
    method Disconnect()
      requires Valid()
      modifies this`scanning, this`connected, this`percentage, this`lastPosition, this`translateX, this`savedId
      ensures Valid()
      ensures !scanning && connected.None?
      ensures old(connected).Some? ==>
        percentage == 0.0 && lastPosition == 0.0 && translateX == 0.0 && savedId.None?
      ensures old(connected).None? ==>
        percentage == old(percentage) && lastPosition == old(lastPosition) &&
        translateX == old(translateX) && savedId == old(savedId)
    {
      scanning := false;
      if connected.Some? {
        connected := None;
        percentage := 0.0;
        lastPosition := 0.0;
        translateX := 0.0;
        savedId := None;
      }
    }

    /**
     * `connectToDevice`: the scan stops; a successful connect records the
     * device, and only when service discovery also succeeds is its id saved.
     */
    method ConnectToDevice(id: string, connectOk: bool, discoverOk: bool)
      modifies this`scanning, this`connected, this`savedId
      ensures !scanning
      ensures connected == (if connectOk then Some(id) else old(connected))
      ensures savedId == (if connectOk && discoverOk then Some(id) else old(savedId))
    {
      scanning := false;
      if !connectOk {
        return;
      }
      connected := Some(id);
      if discoverOk {
        savedId := Some(id);
      }
    }

    /**
     * `scanForTargetDevice`: the scan runs over the adverts it reports and
     * connects once, to the first device named exactly 'CLWM-B07' (the
     * `isConnecting` flag keeps it to one). With none found the timeout
     * stops the scan. Returns the ids a connection was attempted to.
     */
    method ScanForTarget(adverts: seq<Advert>, connectOk: bool, discoverOk: bool) returns (attempts: seq<string>)
      modifies this`scanning, this`connected, this`savedId
      ensures var i := FirstTarget(adverts);
        (i == -1 ==> attempts == [] && connected == old(connected) && savedId == old(savedId)) &&
        (i >= 0 ==> (attempts == [adverts[i].id] &&
          connected == (if connectOk then Some(adverts[i].id) else old(connected)) &&
          savedId == (if connectOk && discoverOk then Some(adverts[i].id) else old(savedId))))
      ensures !scanning
    {
      scanning := true;
      var isConnecting := false;
      attempts := [];
      var k := 0;
      while k < |adverts|
        invariant 0 <= k <= |adverts|
        invariant var i := FirstTarget(adverts);
          if i == -1 || k <= i then
            !isConnecting && attempts == [] && scanning && connected == old(connected) && savedId == old(savedId)
          else
            isConnecting && attempts == [adverts[i].id] && !scanning &&
            connected == (if connectOk then Some(adverts[i].id) else old(connected)) &&
            savedId == (if connectOk && discoverOk then Some(adverts[i].id) else old(savedId))
      {
        if adverts[k].name == Some(TargetDeviceName) && !isConnecting {
          isConnecting := true;
          scanning := false;
          attempts := attempts + [adverts[k].id];
          ConnectToDevice(adverts[k].id, connectOk, discoverOk);
        }
        k := k + 1;
      }
      if !isConnecting {
        scanning := false;
      }
    }

    /**
     * The focus effect's `autoConnectAndScan`, run when no device is
     * connected: reconnect to the saved id if there is one; when that
     * connects and discovers, stop there. Otherwise the saved id is removed
     * (a failed discovery leaves the device recorded as connected) and the
     * scan for the target device runs.
     */
    method AutoConnect(reconnectOk: bool, rediscoverOk: bool, adverts: seq<Advert>, connectOk: bool, discoverOk: bool)
      returns (attempts: seq<string>)
      requires connected.None?
      modifies this`scanning, this`connected, this`savedId
      ensures old(savedId).Some? && reconnectOk && rediscoverOk ==>
        connected == old(savedId) && savedId == old(savedId) && attempts == []
      ensures !(old(savedId).Some? && reconnectOk && rediscoverOk) ==>
        |attempts| <= 1 &&
        (attempts == [] ==> savedId.None? && FirstTarget(adverts) == -1) &&
        (savedId.Some? ==> attempts != [] && connectOk && discoverOk && savedId == Some(attempts[0]))
      ensures old(savedId).Some? && reconnectOk && rediscoverOk ==> scanning == old(scanning)
      ensures !(old(savedId).Some? && reconnectOk && rediscoverOk) ==>
        var i := FirstTarget(adverts);
        var reconnected := if old(savedId).Some? && reconnectOk then old(savedId) else None;
        attempts == (if i == -1 then [] else [adverts[i].id]) && !scanning &&
        connected == (if i >= 0 && connectOk then Some(adverts[i].id) else reconnected) &&
        savedId == (if i >= 0 && connectOk && discoverOk then Some(adverts[i].id) else None)
    {
      attempts := [];
      if savedId.Some? {
        if reconnectOk {
          connected := savedId;
          if rediscoverOk {
            return;
          }
        }
        savedId := None;
      }
      attempts := ScanForTarget(adverts, connectOk, discoverOk);
    }
  }

  /**
   * As written, a drag released after the window has connected reaches the
   * store but sends nothing to the window.
   */
  method ReleaseAfterConnectAsWritten() returns (connectedNow: bool, written: nat, stored: nat)
    ensures connectedNow && written == 0 && stored == 1
  {
    var screen := new Screen(100.0, None);
    screen.ConnectToDevice("CLWM-B07", true, true);
    screen.PanRelease(50.0);
    connectedNow, written, stored := screen.connected.Some?, |screen.writes|, |screen.storeUpdates|;
  }

  /** With the intended handler, the same release sends one frame, carrying 50 %, to the connected window. */
  method ReleaseAfterConnectIntended() returns (writes: seq<(string, string)>)
    ensures writes == [("CLWM-B07", Base64(PercentageFrame(50.0)))]
  {
    var screen := new Screen(100.0, None);
    screen.ConnectToDevice("CLWM-B07", true, true);
    screen.PanReleaseIntended(50.0);
    writes := screen.writes;
  }
}
