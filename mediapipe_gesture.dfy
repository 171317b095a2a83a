/*
 * The MediaPipe gesture service: each camera frame yields the hand's palm
 * centre and a gesture named from which of the five fingers are extended.
 * The landmark geometry (tip above joint, thumb tip right of its base) and
 * the palm-centre arithmetic are floating point and enter the model as
 * already-computed finger flags and a centre.
 */
module MediapipeGesture {
  import opened Common

  datatype Finger = Thumb | Index | Middle | Ring | Pinky

  /** The five finger states `detect_gesture` computes from the landmarks. */
  datatype Fingers = Fingers(thumb: bool, index: bool, middle: bool, ring: bool, pinky: bool)

  function Bit(b: bool): nat { if b then 1 else 0 }

  /** `extended_count`: the sum of the five flags. */
  function ExtendedCount(f: Fingers): (n: nat)
    ensures n <= 5
    ensures n == 0 <==> !f.thumb && !f.index && !f.middle && !f.ring && !f.pinky
    ensures n == 5 <==> f.thumb && f.index && f.middle && f.ring && f.pinky
  {
    Bit(f.thumb) + Bit(f.index) + Bit(f.middle) + Bit(f.ring) + Bit(f.pinky)
  }

  /** The set of extended fingers. */
  function Extended(f: Fingers): (s: set<Finger>)
    ensures Thumb in s <==> f.thumb
    ensures Index in s <==> f.index
    ensures Middle in s <==> f.middle
    ensures Ring in s <==> f.ring
    ensures Pinky in s <==> f.pinky
  {
    (if f.thumb then {Thumb} else {}) + (if f.index then {Index} else {}) +
    (if f.middle then {Middle} else {}) + (if f.ring then {Ring} else {}) +
    (if f.pinky then {Pinky} else {})
  }

  /** Whether finger `x` is extended in `f`. */
  predicate IsExtended(f: Fingers, x: Finger)
  {
    match x
    case Thumb => f.thumb
    case Index => f.index
    case Middle => f.middle
    case Ring => f.ring
    case Pinky => f.pinky
  }

  const AllFingers: set<Finger> := {Thumb, Index, Middle, Ring, Pinky}

  /** The confidence reported for every recognised gesture. */
  const Recognised: real := 0.9

  /** `detect_gesture` as written: the count-based if/elif chain. */
  function DetectGesture(f: Fingers): (r: (string, real))
    ensures r.1 == Recognised || r == ("unknown", 0.5)
  {
    var count := ExtendedCount(f);
    if count == 0 then ("fist", Recognised)
    else if count == 5 then ("open_palm", Recognised)
    else if f.index && count == 1 then ("pointing", Recognised)
    else if f.index && f.middle && count == 2 then ("peace", Recognised)
    else if f.thumb && count == 1 then ("thumbs_up", Recognised)
    else ("unknown", 0.5)
  }

  /** The classification stated on the set of extended fingers. */
  function Classify(s: set<Finger>): (r: (string, real))
  {
    if s == {} then ("fist", Recognised)
    else if s == AllFingers then ("open_palm", Recognised)
    else if s == {Index} then ("pointing", Recognised)
    else if s == {Index, Middle} then ("peace", Recognised)
    else if s == {Thumb} then ("thumbs_up", Recognised)
    else ("unknown", 0.5)
  }

  /** The finger sets the chain singles out, each read off the five flags. */
  lemma SetShapes(f: Fingers)
    ensures Extended(f) == {} <==> !f.thumb && !f.index && !f.middle && !f.ring && !f.pinky
    ensures Extended(f) == AllFingers <==> f.thumb && f.index && f.middle && f.ring && f.pinky
    ensures Extended(f) == {Index} <==> !f.thumb && f.index && !f.middle && !f.ring && !f.pinky
    ensures Extended(f) == {Index, Middle} <==> !f.thumb && f.index && f.middle && !f.ring && !f.pinky
    ensures Extended(f) == {Thumb} <==> f.thumb && !f.index && !f.middle && !f.ring && !f.pinky
  {
    var s := Extended(f);
    forall x ensures x in s <==> IsExtended(f, x) {
      match x
      case Thumb =>
      case Index =>
      case Middle =>
      case Ring =>
      case Pinky =>
    }
  }

  /**
   * The count-based chain names exactly the finger sets: no finger is a
   * fist, all five an open palm, exactly {index} pointing, exactly {index,
   * middle} peace, exactly {thumb} thumbs up, and every other set unknown.
   */
  lemma DetectGestureBySet(f: Fingers)
    ensures DetectGesture(f) == Classify(Extended(f))
  {
    SetShapes(f);
  }

  /** Two hands with the same extended fingers get the same gesture and confidence. */
  lemma GestureDependsOnlyOnSet(f: Fingers, g: Fingers)
    requires Extended(f) == Extended(g)
    ensures DetectGesture(f) == DetectGesture(g)
  {
    DetectGestureBySet(f);
    DetectGestureBySet(g);
  }

  /** One camera read: no frame, a frame without a hand, or a hand with its flags and palm centre. */
  datatype Frame = NoFrame | NoHand | Hand(fingers: Fingers, nx: real, ny: real)

  /** The dictionary `process_frame` returns. */
  datatype Report = Report(nx: real, ny: real, gesture: string, confidence: real)

  class Recognizer {
    var lastGesture: Option<string>
    var lastPosition: (real, real)

    /** `__init__`: no gesture yet, the position at the centre of the frame. */
    constructor ()
      ensures lastGesture == None && lastPosition == (0.5, 0.5)
    {
      lastGesture := None;
      lastPosition := (0.5, 0.5);
    }

    /**
     * `process_frame`: a failed read reports nothing; a hand is classified and
     * becomes the last gesture and position; no hand reports "none" with
     * confidence 0 at the last position, which stays as it was.
     */
    method ProcessFrame(frame: Frame) returns (r: Option<Report>)
      modifies this
      ensures frame.NoFrame? ==> r.None? && lastGesture == old(lastGesture) && lastPosition == old(lastPosition)
      ensures frame.NoHand? ==>
        r == Some(Report(old(lastPosition).0, old(lastPosition).1, "none", 0.0)) &&
        lastGesture == old(lastGesture) && lastPosition == old(lastPosition)
      ensures frame.Hand? ==>
        var g := DetectGesture(frame.fingers);
        r == Some(Report(frame.nx, frame.ny, g.0, g.1)) &&
        lastGesture == Some(g.0) && lastPosition == (frame.nx, frame.ny)
    {
      match frame {
        case NoFrame =>
          r := None;
        case NoHand =>
          r := Some(Report(lastPosition.0, lastPosition.1, "none", 0.0));
        case Hand(fingers, nx, ny) =>
          var (gesture, confidence) := DetectGesture(fingers);
          lastGesture := Some(gesture);
          lastPosition := (nx, ny);
          r := Some(Report(nx, ny, gesture, confidence));
      }
    }
  }

  /** A hand report never carries the reserved name "none" nor confidence 0. */
  lemma HandReportDistinct(f: Fingers)
    ensures DetectGesture(f).0 != "none" && DetectGesture(f).1 > 0.0
  {
  }
}
