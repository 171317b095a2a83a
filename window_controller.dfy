/*
 * The window actuator over Bluetooth LE: a position in percent, a
 * connection, and a status line. Positions are sent as the actuator's
 * 6-byte command frame.
 *
 * The Bluetooth adapter, the scan and the link are outside the model: what
 * they report arrives as parameters (`AdapterOutcome`, `ScanOutcome`, the
 * `writeOk` flag of a write), and the background scan and connect tasks run
 * to completion inside `Connect`.
 */
module WindowController {
  import opened Common

  /** `x` limited to `[lo, hi]`, as the two `if`s at the top of `setPosition`. */
  function Clamp(x: int, lo: int, hi: int): (r: int)
    requires lo <= hi
    ensures lo <= r <= hi
    ensures lo <= x <= hi ==> r == x
    ensures x < lo ==> r == lo
    ensures x > hi ==> r == hi
  {
    if x < lo then lo else if x > hi then hi else x
  }

  /** The actuator's position command: 2A 17 10 00 00 followed by the percentage. */
  function CommandFrame(p: byte): (frame: seq<byte>)
    ensures |frame| == 6 && frame[5] == p
  {
    [0x2A, 0x17, 0x10, 0x00, 0x00, p]
  }

  /** Reading a command frame back: the percentage of a well-formed frame, None otherwise. */
  function FramePercentage(frame: seq<byte>): (r: Option<byte>)
    ensures r.Some? ==> frame == CommandFrame(r.value)
  {
    if |frame| == 6 && frame[..5] == [0x2A, 0x17, 0x10, 0x00, 0x00] then
      assert frame == frame[..5] + [frame[5]];
      Some(frame[5])
    else None
  }

  /** Every command frame reads back as the percentage it was built from. */
  lemma FrameRoundTrip(p: byte)
    ensures FramePercentage(CommandFrame(p)) == Some(p)
  {
    assert CommandFrame(p)[..5] == [0x2A, 0x17, 0x10, 0x00, 0x00];
  }

  datatype AdapterOutcome = NoAdapter | AdapterError | AdapterFound
  datatype LinkOutcome = Linked | LinkFailed | LinkError
  datatype ScanOutcome = ScanFailed | NotFound | Found(link: LinkOutcome)

  datatype Event =
    | StatusChanged(text: string)
    | PositionChanged(position: int)
    | ConnectionChanged(connected: bool)
    | CommandWritten(frame: seq<byte>)

  /** What `setStatus(text)` emits when the status was `current`. */
  function StatusEvents(current: string, text: string): (r: seq<Event>)
    ensures |r| <= 1
    ensures r == [] <==> current == text
  {
    if current == text then [] else [StatusChanged(text)]
  }

  /** What a run of `setStatus` calls emits, starting from `current`. */
  function StatusTrail(current: string, texts: seq<string>): seq<Event>
    decreases |texts|
  {
    if |texts| == 0 then [] else StatusEvents(current, texts[0]) + StatusTrail(texts[0], texts[1..])
  }

  /** Two `setStatus` calls in a row, after the events already sent. */
  lemma TrailOfTwo(sent: seq<Event>, current: string, a: string, b: string)
    ensures sent + StatusTrail(current, [a, b]) == sent + StatusEvents(current, a) + StatusEvents(a, b)
  {
    assert [a, b][1..] == [b];
    assert [b][1..] == [];
    assert StatusTrail(a, [b]) == StatusEvents(a, b) + [];
    assert StatusEvents(a, b) + [] == StatusEvents(a, b);
  }

  /** Three `setStatus` calls in a row, after the events already sent. */
  lemma TrailOfThree(sent: seq<Event>, current: string, a: string, b: string, c: string)
    ensures sent + StatusTrail(current, [a, b, c])
         == sent + StatusEvents(current, a) + StatusEvents(a, b) + StatusEvents(b, c)
  {
    assert [a, b, c][1..] == [b, c];
    TrailOfTwo(sent + StatusEvents(current, a), a, b, c);
    assert StatusTrail(current, [a, b, c]) == StatusEvents(current, a) + StatusTrail(a, [b, c]);
  }

  /** The status line after a position command: the percentage, or the failure. */
  function CommandStatus(p: nat, writeOk: bool): (r: string)
    ensures writeOk ==> r == "Position: " + NatToString(p) + "%"
    ensures !writeOk ==> r == "Command failed"
  {
    if writeOk then "Position: " + NatToString(p) + "%" else "Command failed"
  }

  /**
   * The status line after `setPosition(percentage)`: `connected` is the
   * controller's flag, `linked` whether the peripheral link is up.
   */
  function StatusAfterPosition(status: string, connected: bool, linked: bool, percentage: int, writeOk: bool): string
  {
    if !connected then "Not connected"
    else if !linked then status
    else CommandStatus(Clamp(percentage, 0, 100), writeOk)
  }

  /**
   * What `setPosition(percentage)` emits: only "Not connected" when the flag
   * is down; otherwise a position change, then, when the link is up, the
   * frame and the status.
   */
  function PositionEvents(status: string, connected: bool, linked: bool, percentage: int, writeOk: bool): (r: seq<Event>)
    ensures !connected ==> r == StatusEvents(status, "Not connected")
    ensures connected ==> |r| >= 1 && r[0] == PositionChanged(Clamp(percentage, 0, 100))
    ensures connected && !linked ==> r == [PositionChanged(Clamp(percentage, 0, 100))]
    ensures connected && linked && writeOk ==> |r| >= 2 && r[1] == CommandWritten(CommandFrame(Clamp(percentage, 0, 100)))
  {
    var p := Clamp(percentage, 0, 100);
    if !connected then StatusEvents(status, "Not connected")
    else if !linked then [PositionChanged(p)]
    else
      [PositionChanged(p)] + (if writeOk then [CommandWritten(CommandFrame(p))] else [])
      + StatusEvents(status, CommandStatus(p, writeOk))
  }

  /** A frame is written only with the flag set and the link up, and then carries the clamped percentage. */
  lemma PositionWritesOneFrame(status: string, connected: bool, linked: bool, percentage: int, writeOk: bool,
                               frame: seq<byte>)
    requires CommandWritten(frame) in PositionEvents(status, connected, linked, percentage, writeOk)
    ensures connected && linked && writeOk
    ensures FramePercentage(frame) == Some(Clamp(percentage, 0, 100))
  {
    var p := Clamp(percentage, 0, 100);
    if connected && linked {
      var r := PositionEvents(status, connected, linked, percentage, writeOk);
      var tail := StatusEvents(status, CommandStatus(p, writeOk));
      assert r == [PositionChanged(p)] + (if writeOk then [CommandWritten(CommandFrame(p))] else []) + tail;
      assert CommandWritten(frame) !in tail;
      FrameRoundTrip(p);
    }
  }

  /** The statuses a connection attempt goes through, in order. */
  function ConnectStatuses(scan: ScanOutcome): (r: seq<string>)
    ensures |r| >= 2 && r[0] == "Scanning for device..."
  {
    match scan
    case ScanFailed => ["Scanning for device...", "Scan failed"]
    case NotFound => ["Scanning for device...", "Device not found"]
    case Found(Linked) => ["Scanning for device...", "Connecting...", "Connected"]
    case Found(LinkFailed) => ["Scanning for device...", "Connecting...", "Connection failed"]
    case Found(LinkError) => ["Scanning for device...", "Connecting...", "Connection error"]
  }

  class Controller {
    var status: string
    var connected: bool
    var ready: bool
    /** The last position sent, 0..100. */
    var position: int
    /**
     * Whether the BLE peripheral link is up (`m_peripheral.is_connected()`).
     * It is separate from `connected` (`m_connected`): the actuator can drop
     * the link by itself, and nothing then clears the flag.
     */
    var peripheralLinked: bool
    var events: seq<Event>

    /** The position is a percentage; a live link was made by `connect`, which sets the flag, and only once ready. */
    ghost predicate Valid()
      reads this
    {
      0 <= position <= 100 && (peripheralLinked ==> connected) && (connected ==> ready)
    }

    /** The constructor: find an adapter, become ready, and try to connect. */
    constructor(adapter: AdapterOutcome, scan: ScanOutcome)
      ensures Valid()
      ensures position == 0
      ensures ready <==> adapter.AdapterFound?
      ensures connected <==> adapter.AdapterFound? && scan == Found(Linked)
      ensures adapter.NoAdapter? ==> status == "No Bluetooth adapter found"
      ensures adapter.AdapterError? ==> status == "Bluetooth initialization failed"
      ensures adapter.AdapterFound? ==> status == ConnectStatuses(scan)[|ConnectStatuses(scan)| - 1]
    {
      status := "";
      connected := false;
      ready := false;
      position := 0;
      peripheralLinked := false;
      events := [];
      new;
      match adapter {
        case NoAdapter =>
          SetStatus("No Bluetooth adapter found");
        case AdapterError =>
          SetStatus("Bluetooth initialization failed");
        case AdapterFound =>
          ready := true;
          SetStatus("Bluetooth adapter ready");
          Connect(scan);
      }
    }

    function IsConnected(): bool
      reads this
    {
      connected
    }

    /** `setStatus`: a new text is stored and announced; the same text changes nothing. */
    method SetStatus(text: string)
      modifies this
      ensures status == text
      ensures events == old(events) + StatusEvents(old(status), text)
      ensures connected == old(connected) && ready == old(ready) && position == old(position)
      ensures peripheralLinked == old(peripheralLinked)
    {
      if status == text {
        return;
      }
      status := text;
      events := events + [StatusChanged(text)];
    }

    /** `sendCommand`: write the frame to a linked peripheral and report the outcome. */
    method SendCommand(percentage: int, writeOk: bool)
      requires 0 <= percentage <= 100
      modifies this
      ensures !old(peripheralLinked) ==> status == old(status) && events == old(events)
      ensures old(peripheralLinked) ==>
        status == CommandStatus(percentage, writeOk)
        && events == old(events) + (if writeOk then [CommandWritten(CommandFrame(percentage))] else [])
                     + StatusEvents(old(status), CommandStatus(percentage, writeOk))
      ensures connected == old(connected) && ready == old(ready) && position == old(position)
      ensures peripheralLinked == old(peripheralLinked)
    {
      if !peripheralLinked {
        return;
      }
      if writeOk {
        events := events + [CommandWritten(CommandFrame(percentage))];
        SetStatus("Position: " + NatToString(percentage) + "%");
      } else {
        SetStatus("Command failed");
      }
    }

    /**
     * `setPosition`: clamp to 0..100; without a connection only say so;
     * otherwise store and announce the position and send it.
     */
    method SetPosition(percentage: int, writeOk: bool)
      requires Valid()
      modifies this
      ensures Valid()
      ensures old(connected) ==> position == Clamp(percentage, 0, 100)
      ensures !old(connected) ==> position == old(position)
      ensures status == StatusAfterPosition(old(status), old(connected), old(peripheralLinked), percentage, writeOk)
      ensures events == old(events) + PositionEvents(old(status), old(connected), old(peripheralLinked), percentage, writeOk)
      ensures connected == old(connected) && ready == old(ready) && peripheralLinked == old(peripheralLinked)
    {
      var p := percentage;
      if p < 0 {
        p := 0;
      }
      if p > 100 {
        p := 100;
      }
      if !connected {
        SetStatus("Not connected");
        return;
      }
      position := p;
      events := events + [PositionChanged(position)];
      SendCommand(p, writeOk);
    }

    /** `openWindow`: move to 100 % and say so. */
    method OpenWindow(writeOk: bool)
      requires Valid()
      modifies this
      ensures Valid()
      ensures old(connected) ==> position == 100
      ensures !old(connected) ==> position == old(position)
      ensures status == "Window opening to 100%"
      ensures events == old(events) + PositionEvents(old(status), old(connected), old(peripheralLinked), 100, writeOk)
                        + StatusEvents(StatusAfterPosition(old(status), old(connected), old(peripheralLinked), 100, writeOk), "Window opening to 100%")
      ensures connected == old(connected)
    {
      SetPosition(100, writeOk);
      SetStatus("Window opening to 100%");
    }

    /** `closeWindow`: move to 0 % and say so. */
    method CloseWindow(writeOk: bool)
      requires Valid()
      modifies this
      ensures Valid()
      ensures old(connected) ==> position == 0
      ensures !old(connected) ==> position == old(position)
      ensures status == "Window closing to 0%"
      ensures events == old(events) + PositionEvents(old(status), old(connected), old(peripheralLinked), 0, writeOk)
                        + StatusEvents(StatusAfterPosition(old(status), old(connected), old(peripheralLinked), 0, writeOk), "Window closing to 0%")
      ensures connected == old(connected)
    {
      SetPosition(0, writeOk);
      SetStatus("Window closing to 0%");
    }

    /**
     * `connect`: nothing happens unless ready and not yet connected;
     * otherwise scan for the actuator and, when found, link to it.
     */
    method Connect(scan: ScanOutcome)
      requires Valid()
      modifies this
      ensures Valid()
      ensures !old(ready) || old(connected) ==>
        status == old(status) && events == old(events) && connected == old(connected)
        && peripheralLinked == old(peripheralLinked)
      ensures old(ready) && !old(connected) ==>
        var texts := ConnectStatuses(scan);
        status == texts[|texts| - 1]
        && connected == (scan == Found(Linked)) && peripheralLinked == (scan == Found(Linked))
        && events == old(events) + StatusTrail(old(status), texts)
                     + (if scan == Found(Linked) then [ConnectionChanged(true)] else [])
      ensures position == old(position) && ready == old(ready)
    {
      if !ready {
        return;
      }
      if connected {
        return;
      }
      ghost var start := status;
      ghost var before := events;
      SetStatus("Scanning for device...");
      match scan {
        case ScanFailed =>
          SetStatus("Scan failed");
          TrailOfTwo(before, start, "Scanning for device...", "Scan failed");
        case NotFound =>
          SetStatus("Device not found");
          TrailOfTwo(before, start, "Scanning for device...", "Device not found");
        case Found(link) =>
          SetStatus("Connecting...");
          match link {
            case Linked =>
              peripheralLinked := true;
              connected := true;
              SetStatus("Connected");
              TrailOfThree(before, start, "Scanning for device...", "Connecting...", "Connected");
              events := events + [ConnectionChanged(true)];
            case LinkFailed =>
              SetStatus("Connection failed");
              TrailOfThree(before, start, "Scanning for device...", "Connecting...", "Connection failed");
            case LinkError =>
              SetStatus("Connection error");
              TrailOfThree(before, start, "Scanning for device...", "Connecting...", "Connection error");
          }
      }
    }

    /**
     * `disconnect`, as written: only a live link is dropped and the flag
     * cleared; with the link already gone nothing happens, so a flag left
     * set by a lost link stays set.
     */
    method Disconnect()
      requires Valid()
      modifies this
      ensures Valid()
      ensures !peripheralLinked
      ensures old(peripheralLinked) ==>
        !connected && status == "Disconnected"
        && events == old(events) + StatusEvents(old(status), "Disconnected") + [ConnectionChanged(false)]
      ensures !old(peripheralLinked) ==>
        connected == old(connected) && status == old(status) && events == old(events)
      ensures position == old(position) && ready == old(ready)
    {
      if peripheralLinked {
        peripheralLinked := false;
        connected := false;
        SetStatus("Disconnected");
        events := events + [ConnectionChanged(false)];
      }
    }

    /**
     * `disconnect` as evidently intended: the controller ends disconnected
     * whether or not the link is still up, and a set flag is announced as
     * cleared, so that a later `connect` can link again.
     */
    method DisconnectIntended()
      requires Valid()
      modifies this
      ensures Valid()
      ensures !connected && !peripheralLinked
      ensures old(connected) ==>
        status == "Disconnected"
        && events == old(events) + StatusEvents(old(status), "Disconnected") + [ConnectionChanged(false)]
      ensures !old(connected) ==> status == old(status) && events == old(events)
      ensures position == old(position) && ready == old(ready)
    {
      if connected {
        peripheralLinked := false;
        connected := false;
        SetStatus("Disconnected");
        events := events + [ConnectionChanged(false)];
      }
    }

    /**
     * The actuator drops the link by itself (out of range, powered off).
     * The source has no callback for this, so only the link goes down.
     */
    method LinkLost()
      requires Valid()
      modifies this
      ensures Valid()
      ensures !peripheralLinked
      ensures connected == old(connected) && status == old(status) && events == old(events)
      ensures position == old(position) && ready == old(ready)
    {
      peripheralLinked := false;
    }
  }

  /**
   * As written, a lost link leaves the controller stuck: `disconnect` does
   * nothing, the flag stays set, and `connect` then refuses to scan even
   * though the actuator is in range again.
   */
  method LinkLossSticksAsWritten() returns (connectedAfter: bool, linkedAfter: bool, scanned: bool)
    ensures connectedAfter && !linkedAfter && !scanned
  {
    var c := new Controller(AdapterFound, Found(Linked));
    c.LinkLost();
    c.Disconnect();
    var before := |c.events|;
    c.Connect(Found(Linked));
    connectedAfter, linkedAfter, scanned := c.connected, c.peripheralLinked, |c.events| != before;
  }

  /** With the intended `disconnect`, the same sequence links again. */
  method LinkLossRecoversIntended() returns (connectedAfter: bool, linkedAfter: bool, scanned: bool)
    ensures connectedAfter && linkedAfter && scanned
  {
    var c := new Controller(AdapterFound, Found(Linked));
    c.LinkLost();
    c.DisconnectIntended();
    var before := |c.events|;
    c.Connect(Found(Linked));
    connectedAfter, linkedAfter, scanned := c.connected, c.peripheralLinked, |c.events| != before;
  }
}
