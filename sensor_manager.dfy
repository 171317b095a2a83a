/*
 * The sensor hub: the CO2 sensor's 9-byte replies with their negate-sum
 * checksum, the dust sensor's 10-byte frames found in a byte stream that
 * may start mid-frame, and the SHTC3 temperature/humidity reading guarded by
 * its CRC-8.
 *
 * Readings are kept as the sensors' raw integers; the conversions to
 * degrees, percent and micrograms are floating point and not modelled.
 */
module SensorManager {
  import opened Common

  // ---------------------------------------------------------------------
  // SHTC3 CRC-8: initial value 0xFF, polynomial 0x31, most significant bit first
  // ---------------------------------------------------------------------

  /** One shift of the CRC register. */
  function CrcStep(crc: bv8): bv8
  {
    if crc & 0x80 != 0 then (crc << 1) ^ 0x31 else crc << 1
  }

  /** `n` shifts of the CRC register. */
  function CrcShifts(crc: bv8, n: nat): bv8
  {
    if n == 0 then crc else CrcStep(CrcShifts(crc, n - 1))
  }

  /** The register after taking in one more byte. */
  function CrcByte(crc: bv8, b: byte): bv8
  {
    CrcShifts(crc ^ (b as bv8), 8)
  }

  /** The CRC-8 of a byte string. */
  function Crc8Of(data: seq<byte>): bv8
  {
    if |data| == 0 then 0xFF else CrcByte(Crc8Of(data[..|data| - 1]), data[|data| - 1])
  }

  /** The check value the SHTC3 data sheet gives: the CRC of BE EF is 92. */
  lemma Crc8DataSheetExample()
    ensures Crc8Of([0xBE, 0xEF]) == 0x92
  {
    assert [0xBE, 0xEF][..1] == [0xBE];
    assert [0xBE][..0] == [];
    assert CrcShifts(0x41, 1) == 0x82;
    assert CrcShifts(0x41, 2) == 0x35;
    assert CrcShifts(0x41, 3) == 0x6A;
    assert CrcShifts(0x41, 4) == 0xD4;
    assert CrcShifts(0x41, 5) == 0x99;
    assert CrcShifts(0x41, 6) == 0x03;
    assert CrcShifts(0x41, 7) == 0x06;
    assert CrcShifts(0x41, 8) == 0x0C;
    assert Crc8Of([0xBE]) == 0x0C;
    assert CrcShifts(0xE3, 1) == 0xF7;
    assert CrcShifts(0xE3, 2) == 0xDF;
    assert CrcShifts(0xE3, 3) == 0x8F;
    assert CrcShifts(0xE3, 4) == 0x2F;
    assert CrcShifts(0xE3, 5) == 0x5E;
    assert CrcShifts(0xE3, 6) == 0xBC;
    assert CrcShifts(0xE3, 7) == 0x49;
    assert CrcShifts(0xE3, 8) == 0x92;
  }

  /** `SensorManager::crc8`. */
  method Crc8(data: seq<byte>) returns (crc: bv8)
    ensures crc == Crc8Of(data)
  {
    crc := 0xFF;
    var i := 0;
    while i < |data|
      invariant 0 <= i <= |data|
      invariant crc == Crc8Of(data[..i])
    {
      crc := crc ^ (data[i] as bv8);
      ghost var start := crc;
      var j := 0;
      while j < 8
        invariant 0 <= j <= 8
        invariant crc == CrcShifts(start, j)
      {
        if crc & 0x80 != 0 {
          crc := (crc << 1) ^ 0x31;
        } else {
          crc := crc << 1;
        }
        j := j + 1;
      }
      assert data[..i + 1][..i] == data[..i];
      i := i + 1;
    }
    assert data[..i] == data;
  }

  // ---------------------------------------------------------------------
  // Byte sums
  // ---------------------------------------------------------------------

  /** The sum of `s[lo..hi]`. */
  function SumRange(s: seq<byte>, lo: nat, hi: nat): int
    requires lo <= hi <= |s|
    decreases hi - lo
  {
    if lo == hi then 0 else SumRange(s, lo, hi - 1) + s[hi - 1]
  }

  /** A 16-bit word from its high and low bytes. */
  function Word(hi: byte, lo: byte): (w: int)
    ensures 0 <= w < 65536
    ensures w / 256 == hi && w % 256 == lo
  {
    hi as int * 256 + lo as int
  }

  // ---------------------------------------------------------------------
  // CO2 sensor
  // ---------------------------------------------------------------------

  /** The fixed "read concentration" request: FF 01 86 00 00 00 00 00 79. */
  const Co2Request: seq<byte> := [0xFF, 0x01, 0x86, 0x00, 0x00, 0x00, 0x00, 0x00, 0x79]

  /**
   * The checksum of a 9-byte CO2 message: the byte that, added to the sum
   * of bytes 1..7, gives 0 modulo 256.
   */
  function Co2ChecksumOf(data: seq<byte>): (r: byte)
    requires |data| >= 8
    ensures (SumRange(data, 1, 8) + r) % 256 == 0
  {
    Complement(SumRange(data, 1, 8));
    (256 - SumRange(data, 1, 8) % 256) % 256
  }

  /** Adding the two's complement of a sum's low byte clears that byte. */
  lemma Complement(sum: int)
    ensures (sum + (256 - sum % 256) % 256) % 256 == 0
  {
    var q, t := sum / 256, sum % 256;
    assert sum == 256 * q + t;
    if t == 0 {
      assert sum + (256 - t) % 256 == 256 * q;
    } else {
      assert sum + (256 - t) % 256 == 256 * (q + 1);
    }
  }

  /** Reducing modulo 256 before adding does not change the sum's low byte. */
  lemma ModThenAdd(a: int, b: int)
    ensures (a % 256 + b) % 256 == (a + b) % 256
  {
    var q := a / 256;
    assert a == 256 * q + a % 256;
    assert a + b == 256 * q + (a % 256 + b);
  }

  /** The request frame carries its own checksum in its last byte. */
  lemma Co2RequestChecksum()
    ensures Co2ChecksumOf(Co2Request) == Co2Request[8]
  {
    assert SumRange(Co2Request, 1, 8) == 0x87;
  }

  /** `calculateCo2Checksum`: an unsigned-char sum of bytes 1..7, negated. */
  method Co2Checksum(data: seq<byte>) returns (r: byte)
    requires |data| >= 8
    ensures r == Co2ChecksumOf(data)
  {
    var checksum: byte := 0;
    for i := 1 to 8
      invariant checksum == SumRange(data, 1, i) % 256
    {
      ModThenAdd(SumRange(data, 1, i), data[i] as int);
      checksum := (checksum + data[i]) % 256;
    }
    r := (0xFF - checksum + 1) % 256;
  }

  /** A reply `readCo2Data` accepts: at least 9 bytes, FF 86, and a matching checksum. */
  predicate Co2Accepted(response: seq<byte>)
  {
    |response| >= 9 && response[0] == 0xFF && response[1] == 0x86
    && Co2ChecksumOf(response) == response[8]
  }

  /** The concentration in an accepted reply: bytes 2 and 3, big-endian. */
  function Co2Reading(response: seq<byte>): (ppm: int)
    requires |response| >= 4
    ensures 0 <= ppm <= 65535
  {
    Word(response[2], response[3])
  }

  // ---------------------------------------------------------------------
  // Dust sensor
  // ---------------------------------------------------------------------

  /** `QByteArray::indexOf`: the first index of `b`, or -1. */
  function IndexOfByte(s: seq<byte>, b: byte): (r: int)
    ensures -1 <= r < |s|
    ensures r == -1 <==> b !in s
    ensures r >= 0 ==> r < |s| && s[r] == b && b !in s[..r]
  {
    if |s| == 0 then -1
    else if s[0] == b then 0
    else
      var k := IndexOfByte(s[1..], b);
      if k == -1 then -1
      else
        assert s[..k + 1] == [s[0]] + s[1..][..k];
        k + 1
  }

  /** A 10-byte dust frame's checksum: the sum of bytes 2..7 modulo 256. */
  function DustChecksumOf(packet: seq<byte>): byte
    requires |packet| >= 8
  {
    SumRange(packet, 2, 8) % 256
  }

  /** The checksum loop of `readDustData`. */
  method DustChecksum(packet: seq<byte>) returns (sum: int)
    requires |packet| >= 8
    ensures sum == DustChecksumOf(packet)
  {
    sum := 0;
    for i := 2 to 8
      invariant sum == SumRange(packet, 2, i)
    {
      sum := sum + packet[i];
    }
    sum := sum % 256;
  }

  datatype Signal = Co2Changed | Pm25Changed | Pm10Changed | TemperatureChanged | HumidityChanged

  /** The dust parser's state: the pending bytes, the raw PM2.5 and PM10 readings and the signals sent. */
  datatype DustScanState = DustScanState(buffer: seq<byte>, pm25: int, pm10: int, signals: seq<Signal>)

  /** A framed packet with a good checksum updates the readings (little-endian tenths), each only when it differs. */
  function ApplyDustPacket(s: DustScanState, packet: seq<byte>): (r: DustScanState)
    requires |packet| == 10
    ensures r.buffer == s.buffer
    ensures DustChecksumOf(packet) != packet[8] ==> r == s
    ensures DustChecksumOf(packet) == packet[8] ==>
      r.pm25 == Word(packet[3], packet[2]) && r.pm10 == Word(packet[5], packet[4])
  {
    if packet[8] != DustChecksumOf(packet) then s
    else
      var pm25 := Word(packet[3], packet[2]);
      var pm10 := Word(packet[5], packet[4]);
      var s1 := if s.pm25 != pm25 then s.(pm25 := pm25, signals := s.signals + [Pm25Changed]) else s;
      if s1.pm10 != pm10 then s1.(pm10 := pm10, signals := s1.signals + [Pm10Changed]) else s1
  }

  predicate IsSuffix(a: seq<byte>, b: seq<byte>)
  {
    |a| <= |b| && b[|b| - |a|..] == a
  }

  predicate SignalsExtend(before: seq<Signal>, after: seq<Signal>)
  {
    |before| <= |after| && after[..|before|] == before
  }

  /**
   * One pass of `readDustData`'s loop on a buffer of at least 10 bytes:
   * empty the buffer when no 0xAA is left; otherwise skip to it and, when 10
   * bytes remain, drop one byte if byte 9 is not 0xAB or take the 10-byte
   * frame.
   */
  function DustStep(s: DustScanState): (r: DustScanState)
    requires |s.buffer| >= 10
    ensures |r.buffer| < |s.buffer| && IsSuffix(r.buffer, s.buffer)
    ensures SignalsExtend(s.signals, r.signals)
  {
    var start := IndexOfByte(s.buffer, 0xAA);
    if start == -1 then s.(buffer := [])
    else
      var b := s.buffer[start..];
      if |b| < 10 then s.(buffer := b)
      else if b[9] != 0xAB then s.(buffer := b[1..])
      else ApplyDustPacket(s.(buffer := b[10..]), b[..10])
  }

  /** The whole loop: passes until fewer than 10 bytes remain. */
  function DustScan(s: DustScanState): (r: DustScanState)
    ensures |r.buffer| < 10
    ensures |s.buffer| < 10 ==> r == s
    decreases |s.buffer|
  {
    if |s.buffer| < 10 then s else DustScan(DustStep(s))
  }

  /** The loop only ever drops bytes from the front, and only ever adds signals. */
  lemma {:induction false} DustScanConsumesFront(s: DustScanState)
    ensures IsSuffix(DustScan(s).buffer, s.buffer)
    ensures SignalsExtend(s.signals, DustScan(s).signals)
    decreases |s.buffer|
  {
    if |s.buffer| >= 10 {
      var t := DustStep(s);
      DustScanConsumesFront(t);
      var r := DustScan(t);
      assert s.buffer[|s.buffer| - |r.buffer|..] == t.buffer[|t.buffer| - |r.buffer|..];
      assert r.signals[..|s.signals|] == r.signals[..|t.signals|][..|s.signals|];
    }
  }

  /** A well-formed frame at the head of the buffer is taken whole and its readings applied. */
  lemma FrameAtHead(s: DustScanState)
    requires |s.buffer| >= 10 && s.buffer[0] == 0xAA && s.buffer[9] == 0xAB
    requires DustChecksumOf(s.buffer[..10]) == s.buffer[8]
    ensures DustScan(s) == DustScan(s.(buffer := s.buffer[10..],
                                       pm25 := Word(s.buffer[3], s.buffer[2]),
                                       pm10 := Word(s.buffer[5], s.buffer[4]),
                                       signals := ApplyDustPacket(s, s.buffer[..10]).signals))
  {
    assert s.buffer[0..] == s.buffer;
  }

  /** A frame with a wrong checksum is consumed without touching the readings. */
  lemma BadFrameConsumed(s: DustScanState)
    requires |s.buffer| >= 10 && s.buffer[0] == 0xAA && s.buffer[9] == 0xAB
    requires DustChecksumOf(s.buffer[..10]) != s.buffer[8]
    ensures DustScan(s) == DustScan(s.(buffer := s.buffer[10..]))
  {
    assert s.buffer[0..] == s.buffer;
  }

  // ---------------------------------------------------------------------
  // The sensor hub
  // ---------------------------------------------------------------------

  /** The SHTC3 guard: each 16-bit word is followed by its CRC-8. */
  predicate TempHumiCrcOk(data: seq<byte>)
    requires |data| == 6
  {
    data[2] as bv8 == Crc8Of(data[0..2]) && data[5] as bv8 == Crc8Of(data[3..5])
  }

  /** The two CRC comparisons of `requestTempHumiData`. */
  method CheckTempHumiCrc(data: seq<byte>) returns (ok: bool)
    requires |data| == 6
    ensures ok == TempHumiCrcOk(data)
  {
    var crcTemp := Crc8(data[0..2]);
    var crcHumi := Crc8(data[3..5]);
    ok := data[2] as bv8 == crcTemp && data[5] as bv8 == crcHumi;
  }

  class Sensors {
    var co2: int
    var pm25: int
    var pm10: int
    /** The raw temperature word, None before the first good reading (the initial 0.0 °C is no raw word). */
    var temperatureRaw: Option<int>
    /** The raw humidity word; the initial 0.0 % is raw word 0. */
    var humidityRaw: int
    var dustBuffer: seq<byte>
    var signals: seq<Signal>

    constructor()
      ensures co2 == 0 && pm25 == 0 && pm10 == 0 && temperatureRaw == None && humidityRaw == 0
      ensures dustBuffer == [] && signals == []
    {
      co2 := 0;
      pm25 := 0;
      pm10 := 0;
      temperatureRaw := None;
      humidityRaw := 0;
      dustBuffer := [];
      signals := [];
    }

    /** `readCo2Data`: an accepted reply that carries a new value updates the reading. */
    method ReadCo2Data(response: seq<byte>)
      modifies this
      ensures Co2Accepted(response) && old(co2) != Co2Reading(response) ==>
        co2 == Co2Reading(response) && signals == old(signals) + [Co2Changed]
      ensures !(Co2Accepted(response) && old(co2) != Co2Reading(response)) ==>
        co2 == old(co2) && signals == old(signals)
      ensures pm25 == old(pm25) && pm10 == old(pm10) && dustBuffer == old(dustBuffer)
      ensures temperatureRaw == old(temperatureRaw) && humidityRaw == old(humidityRaw)
    {
      if |response| >= 9 && response[0] == 0xFF && response[1] == 0x86 {
        var checksum := Co2Checksum(response);
        if checksum == response[8] {
          var newCo2 := Word(response[2], response[3]);
          if co2 != newCo2 {
            co2 := newCo2;
            signals := signals + [Co2Changed];
          }
        }
      }
    }

    /** The parser's view of this object. */
    function DustState(): DustScanState
      reads this
    {
      DustScanState(dustBuffer, pm25, pm10, signals)
    }

    /** `readDustData`: append what arrived, then consume frames until fewer than 10 bytes remain. */
    method ReadDustData(incoming: seq<byte>)
      modifies this
      ensures DustState() == DustScan(old(DustState()).(buffer := old(dustBuffer) + incoming))
      ensures |dustBuffer| < 10 && IsSuffix(dustBuffer, old(dustBuffer) + incoming)
      ensures SignalsExtend(old(signals), signals)
      ensures co2 == old(co2) && temperatureRaw == old(temperatureRaw) && humidityRaw == old(humidityRaw)
    {
      dustBuffer := dustBuffer + incoming;
      ghost var start := DustState();
      DustScanConsumesFront(start);
      while |dustBuffer| >= 10
        invariant DustScan(DustState()) == DustScan(start)
        invariant co2 == old(co2) && temperatureRaw == old(temperatureRaw) && humidityRaw == old(humidityRaw)
        decreases |dustBuffer|
      {
        ghost var before := DustState();
        DustPass();
        assert DustScan(before) == DustScan(DustState());
      }
      assert DustState() == DustScan(start);
    }

    /**
     * One pass of `readDustData`'s loop. Where the source clears the buffer
     * and returns, or breaks on a short tail, the buffer left here is shorter
     * than 10 bytes, so the loop ends just the same.
     */
    method DustPass()
      requires |dustBuffer| >= 10
      modifies this
      ensures DustState() == DustStep(old(DustState()))
      ensures co2 == old(co2) && temperatureRaw == old(temperatureRaw) && humidityRaw == old(humidityRaw)
    {
      var start := IndexOfByte(dustBuffer, 0xAA);
      if start == -1 {
        dustBuffer := [];
        return;
      }
      if start > 0 {
        dustBuffer := dustBuffer[start..];
      }
      if |dustBuffer| < 10 {
        return;
      }
      if dustBuffer[9] != 0xAB {
        dustBuffer := dustBuffer[1..];
        return;
      }
      var packet := dustBuffer[..10];
      dustBuffer := dustBuffer[10..];
      ApplyDustFrame(packet);
    }

    /** The checksum test and reading update for one framed packet. */
    method ApplyDustFrame(packet: seq<byte>)
      requires |packet| == 10
      modifies this
      ensures DustState() == ApplyDustPacket(old(DustState()), packet)
      ensures co2 == old(co2) && temperatureRaw == old(temperatureRaw) && humidityRaw == old(humidityRaw)
    {
      var received := packet[8];
      var calculated := DustChecksum(packet);
      if received == calculated {
        var newPm25 := Word(packet[3], packet[2]);
        var newPm10 := Word(packet[5], packet[4]);
        if pm25 != newPm25 {
          pm25 := newPm25;
          signals := signals + [Pm25Changed];
        }
        if pm10 != newPm10 {
          pm10 := newPm10;
          signals := signals + [Pm10Changed];
        }
      }
    }

    /**
     * `requestTempHumiData`: `reading` is the 6 bytes read over I2C, None
     * when the bus could not be opened, addressed, written or read. A reading
     * whose CRCs do not match changes nothing; otherwise the raw words
     * (big-endian) are taken, each signalled only when it changed.
     */
    method RequestTempHumiData(reading: Option<seq<byte>>)
      requires reading.Some? ==> |reading.value| == 6
      modifies this
      ensures reading.None? || !TempHumiCrcOk(reading.value) ==>
        temperatureRaw == old(temperatureRaw) && humidityRaw == old(humidityRaw) && signals == old(signals)
      ensures reading.Some? && TempHumiCrcOk(reading.value) ==>
        var d := reading.value;
        temperatureRaw == Some(Word(d[0], d[1])) && humidityRaw == Word(d[3], d[4])
        && signals == old(signals)
           + (if old(temperatureRaw) != Some(Word(d[0], d[1])) then [TemperatureChanged] else [])
           + (if old(humidityRaw) != Word(d[3], d[4]) then [HumidityChanged] else [])
      ensures co2 == old(co2) && pm25 == old(pm25) && pm10 == old(pm10) && dustBuffer == old(dustBuffer)
    {
      if reading.None? {
        return;
      }
      var data := reading.value;
      var crcOk := CheckTempHumiCrc(data);
      if !crcOk {
        return;
      }
      var rawTemp := Word(data[0], data[1]);
      var rawHumi := Word(data[3], data[4]);
      if temperatureRaw != Some(rawTemp) {
        temperatureRaw := Some(rawTemp);
        signals := signals + [TemperatureChanged];
      }
      if humidityRaw != rawHumi {
        humidityRaw := rawHumi;
        signals := signals + [HumidityChanged];
      }
    }
  }
}
