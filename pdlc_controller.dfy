/*
 * The PDLC film controller: two active-low relays (GPIO 18 and 23) power
 * the film; with power it is clear, without it frosted. The controller is
 * ready only when both relay lines could be claimed, and each claimed line
 * starts with its relay off.
 */
module PdlcController {
  import opened Common

  datatype Event = TransparencyChanged(transparent: bool) | StatusChanged(text: string)

  /** The controller's observable state right after construction. */
  datatype Snapshot = Snapshot(
    ready: bool,
    transparent: bool,
    /** The relay on GPIO 18: absent when its line could not be claimed, else whether it is on. */
    relay18: Option<bool>,
    relay23: Option<bool>,
    status: string)

  /** What the film shows agrees with what `isTransparent` reports: clear exactly when both relays are on. */
  predicate Reports(transparent: bool, relay18: Option<bool>, relay23: Option<bool>)
  {
    transparent <==> relay18 == Some(true) && relay23 == Some(true)
  }

  /** The status text the constructor ends with. */
  function InitialStatus(ready: bool): (r: string)
    ensures ready ==> r == "PDLC Controller ready"
    ensures !ready ==> r == "PDLC initialization failed"
  {
    if ready then "PDLC Controller ready" else "PDLC initialization failed"
  }

  /**
   * The constructor as written: the relays start off (the GPIO lines are
   * claimed high), but `m_transparent` keeps its declared default `true`.
   */
  function ConstructedAsWritten(gpio18Ok: bool, gpio23Ok: bool): (r: Snapshot)
    ensures r.ready <==> gpio18Ok && gpio23Ok
    ensures r.transparent
  {
    Snapshot(gpio18Ok && gpio23Ok, true,
             if gpio18Ok then Some(false) else None,
             if gpio23Ok then Some(false) else None,
             InitialStatus(gpio18Ok && gpio23Ok))
  }

  /** As written, a freshly built controller reports a clear film while both relays are off. */
  lemma ConstructedAsWrittenMisreports()
    ensures ConstructedAsWritten(true, true).ready
    ensures ConstructedAsWritten(true, true).transparent
    ensures ConstructedAsWritten(true, true).relay18 == Some(false)
    ensures !Reports(ConstructedAsWritten(true, true).transparent,
                     ConstructedAsWritten(true, true).relay18, ConstructedAsWritten(true, true).relay23)
  {
  }

  /** The constructor as intended ("initialize to opaque"): the film starts frosted and is reported so. */
  function Constructed(gpio18Ok: bool, gpio23Ok: bool): (r: Snapshot)
    ensures r.ready <==> gpio18Ok && gpio23Ok
    ensures !r.transparent
    ensures Reports(r.transparent, r.relay18, r.relay23)
  {
    Snapshot(gpio18Ok && gpio23Ok, false,
             if gpio18Ok then Some(false) else None,
             if gpio23Ok then Some(false) else None,
             InitialStatus(gpio18Ok && gpio23Ok))
  }

  /** A relay switched on or off; a line that was never claimed stays absent. */
  function SetRelay(relay: Option<bool>, on: bool): (r: Option<bool>)
    ensures relay.None? <==> r.None?
    ensures relay.Some? ==> r == Some(on)
  {
    if relay.Some? then Some(on) else None
  }

  class Controller {
    var ready: bool
    var transparent: bool
    var relay18: Option<bool>
    var relay23: Option<bool>
    var status: string
    var events: seq<Event>

    /** Ready exactly when both relays exist, and the reported state matches the film. */
    ghost predicate Valid()
      reads this
    {
      (ready <==> relay18.Some? && relay23.Some?)
      && Reports(transparent, relay18, relay23)
    }

    function State(): Snapshot
      reads this
    {
      Snapshot(ready, transparent, relay18, relay23, status)
    }

    /** The constructor, with the initial state corrected to opaque. */
    constructor(gpio18Ok: bool, gpio23Ok: bool)
      ensures Valid()
      ensures State() == Constructed(gpio18Ok, gpio23Ok)
      ensures events == [StatusChanged(InitialStatus(gpio18Ok && gpio23Ok))]
    {
      relay18 := if gpio18Ok then Some(false) else None;
      relay23 := if gpio23Ok then Some(false) else None;
      ready := gpio18Ok && gpio23Ok;
      transparent := false;
      status := "";
      events := [];
      new;
      if ready {
        SetStatus("PDLC Controller ready");
      } else {
        SetStatus("PDLC initialization failed");
      }
    }

    function IsTransparent(): bool
      reads this
    {
      transparent
    }

    /** `setStatus`: a new text is stored and announced; the same text changes nothing. */
    method SetStatus(text: string)
      modifies this
      ensures status == text
      ensures events == old(events) + (if old(status) == text then [] else [StatusChanged(text)])
      ensures ready == old(ready) && transparent == old(transparent)
      ensures relay18 == old(relay18) && relay23 == old(relay23)
    {
      if status == text {
        return;
      }
      status := text;
      events := events + [StatusChanged(text)];
    }

    /** `setTransparent`: on a ready controller, power both relays and report a clear film. */
    method SetTransparent()
      requires Valid()
      modifies this
      ensures Valid()
      ensures !old(ready) ==> State() == old(State()) && events == old(events)
      ensures old(ready) ==>
        transparent && relay18 == Some(true) && relay23 == Some(true)
        && status == "PDLC: Transparent (Glass Mode)"
        && events == old(events)
           + (if old(status) == "PDLC: Transparent (Glass Mode)" then [] else [StatusChanged("PDLC: Transparent (Glass Mode)")])
           + [TransparencyChanged(true)]
      ensures ready == old(ready)
    {
      if !ready {
        return;
      }
      relay18 := SetRelay(relay18, true);
      relay23 := SetRelay(relay23, true);
      transparent := true;
      SetStatus("PDLC: Transparent (Glass Mode)");
      events := events + [TransparencyChanged(true)];
    }

    /** `setOpaque`: on a ready controller, cut both relays and report a frosted film. */
    method SetOpaque()
      requires Valid()
      modifies this
      ensures Valid()
      ensures !old(ready) ==> State() == old(State()) && events == old(events)
      ensures old(ready) ==>
        !transparent && relay18 == Some(false) && relay23 == Some(false)
        && status == "PDLC: Opaque (Privacy Mode)"
        && events == old(events)
           + (if old(status) == "PDLC: Opaque (Privacy Mode)" then [] else [StatusChanged("PDLC: Opaque (Privacy Mode)")])
           + [TransparencyChanged(false)]
      ensures ready == old(ready)
    {
      if !ready {
        return;
      }
      relay18 := SetRelay(relay18, false);
      relay23 := SetRelay(relay23, false);
      transparent := false;
      SetStatus("PDLC: Opaque (Privacy Mode)");
      events := events + [TransparencyChanged(false)];
    }

    /** `setTransparency(b)`: on a ready controller the film ends up as asked, and is reported so. */
    method SetTransparency(b: bool)
      requires Valid()
      modifies this
      ensures Valid()
      ensures old(ready) ==> IsTransparent() == b && relay18 == Some(b) && relay23 == Some(b)
      ensures old(ready) ==>
        var text := if b then "PDLC: Transparent (Glass Mode)" else "PDLC: Opaque (Privacy Mode)";
        status == text
        && events == old(events) + (if old(status) == text then [] else [StatusChanged(text)]) + [TransparencyChanged(b)]
      ensures !old(ready) ==> State() == old(State()) && events == old(events)
      ensures ready == old(ready)
    {
      if b {
        SetTransparent();
      } else {
        SetOpaque();
      }
    }
  }
}
