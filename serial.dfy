/**
 * The byte transmitter of the Futaba VFD driver (writeCharacterDirect) and the
 * events it leaves on the clock and data lines.
 *
 * The display is write-only, so everything the driver does is visible only as a
 * sequence of pin writes, pin-mode changes and delays. This module defines that
 * event vocabulary, the events one byte produces (`ByteEvents`), the events a
 * byte string produces (`Wire`), and a decoder that reads the bytes back from
 * the events (`DecodeWire`). The round trip `DecodeWire(Wire(bs)) == Some(bs)`
 * is what makes "the driver sent bytes bs" an exact statement about the wire.
 */
module Serial {

  datatype Option<T> = None | Some(value: T)

  datatype Level = Low | High

  /** The named delays of the driver; their durations are not modelled. */
  datatype Delay =
    | DataSetupTime            // DATA_SETUP_TIME
    | HalfPeriodTime           // HALF_PERIOD_TIME
    | HalfPeriodLessSetupTime  // HALF_PERIOD_TIME - DATA_SETUP_TIME
    | ProcessTime              // PROCESS_TIME, after every byte
    | ResetHoldTime            // RESET_HOLD_TIME
    | PostResetDelayTime       // POST_RESET_DELAY_TIME

  /** One observable action of the driver: digitalWrite, pinMode(OUTPUT) or timingDelay. */
  datatype Event =
    | PinWrite(pin: bv8, level: Level)
    | PinModeOutput(pin: bv8)
    | Wait(delay: Delay)

  /** Number of events one transmitted byte produces: 8 groups of 6, then the processing delay. */
  const ByteLength: nat := 49

  /** The mask of pass k of writeCharacterDirect's loop: 0b10000000 shifted right k times. */
  function MaskAt(k: nat): (r: bv8)
    requires k <= 8
  {
    if k == 0 then 0x80 else MaskAt(k - 1) >> 1
  }

  /** The mask of each of the eight passes is set; after them it is zero. */
  lemma MaskAtEnds(k: nat)
    requires k <= 8
    ensures MaskAt(k) == 0 <==> k == 8
  {
    if k == 0 {} else if k == 1 {} else if k == 2 {} else if k == 3 {}
    else if k == 4 {} else if k == 5 {} else if k == 6 {} else if k == 7 {}
  }

  /** The k-th bit of b in transmission order, most significant first. */
  function BitMsb(b: bv8, k: nat): bool
    requires k < 8
  {
    b & MaskAt(k) != 0
  }

  function LevelOf(bit: bool): Level {
    if bit then High else Low
  }

  /**
   * One loop iteration of writeCharacterDirect: put the bit on the data line,
   * let it settle, pulse the clock low for half a period, then raise it and wait
   * out the rest of the period.
   */
  function BitGroup(clock: bv8, data: bv8, bit: bool): (r: seq<Event>)
    ensures |r| == 6
  {
    seq(6, i requires 0 <= i < 6 => GroupEvent(clock, data, bit, i))
  }

  /** Event i of the bit period that sends `bit`. */
  function GroupEvent(clock: bv8, data: bv8, bit: bool, i: nat): (r: Event)
    requires i < 6
  {
    if i == 0 then PinWrite(data, LevelOf(bit))
    else if i == 1 then Wait(DataSetupTime)
    else if i == 2 then PinWrite(clock, Low)
    else if i == 3 then Wait(HalfPeriodTime)
    else if i == 4 then PinWrite(clock, High)
    else Wait(HalfPeriodLessSetupTime)
  }

  /** The six events of a bit period, written out. */
  lemma BitGroupSpelled(clock: bv8, data: bv8, bit: bool)
    ensures BitGroup(clock, data, bit)
      == [ PinWrite(data, LevelOf(bit)), Wait(DataSetupTime),
           PinWrite(clock, Low), Wait(HalfPeriodTime),
           PinWrite(clock, High), Wait(HalfPeriodLessSetupTime) ]
  {
  }

  /** The bit groups of the first `n` bits of `b`, in transmission order. */
  function Groups(clock: bv8, data: bv8, b: bv8, n: nat): (r: seq<Event>)
    requires n <= 8
    ensures |r| == 6 * n
  {
    if n == 0 then []
    else Groups(clock, data, b, n - 1) + BitGroup(clock, data, BitMsb(b, n - 1))
  }

  /** Everything writeCharacterDirect(b) does: the 8 bit groups, then the processing delay. */
  function ByteEvents(clock: bv8, data: bv8, b: bv8): (r: seq<Event>)
    ensures |r| == ByteLength
  {
    Groups(clock, data, b, 8) + [Wait(ProcessTime)]
  }

  /** The events of transmitting `bytes` one after the other. */
  function Wire(clock: bv8, data: bv8, bytes: seq<bv8>): (r: seq<Event>)
    ensures |r| == ByteLength * |bytes|
  {
    if bytes == [] then []
    else ByteEvents(clock, data, bytes[0]) + Wire(clock, data, bytes[1..])
  }

  // ---------------------------------------------------------------------------
  // Reading bytes back from the wire
  // ---------------------------------------------------------------------------

  /**
   * The bit that six events carry, if they have the shape of one bit period: a
   * write to the data line, then the clock pulse; the bit is the level written
   * to the data line before the pulse.
   */
  function DecodeBit(clock: bv8, data: bv8, g: seq<Event>): Option<bool> {
    if |g| == 6 && g[0].PinWrite? && g[0].pin == data
       && g[1..] == [Wait(DataSetupTime), PinWrite(clock, Low), Wait(HalfPeriodTime),
                     PinWrite(clock, High), Wait(HalfPeriodLessSetupTime)]
    then Some(g[0].level == High)
    else None
  }

  /** The n bits carried by 6 * n events, shifted in most significant first. */
  function DecodeGroups(clock: bv8, data: bv8, ev: seq<Event>, n: nat): Option<bv8>
    requires |ev| == 6 * n
  {
    if n == 0 then Some(0)
    else
      match DecodeGroups(clock, data, ev[..6 * (n - 1)], n - 1)
      case None => None
      case Some(high) =>
        match DecodeBit(clock, data, ev[6 * (n - 1)..])
        case None => None
        case Some(bit) => Some((high << 1) | (if bit then 1 else 0))
  }

  /** The byte whose transmission is exactly `ev`, if there is one. */
  function DecodeByte(clock: bv8, data: bv8, ev: seq<Event>): Option<bv8> {
    if |ev| == ByteLength && ev[ByteLength - 1] == Wait(ProcessTime)
    then DecodeGroups(clock, data, ev[..ByteLength - 1], 8)
    else None
  }

  /** The byte string whose transmission is exactly `ev`, if there is one. */
  function DecodeWire(clock: bv8, data: bv8, ev: seq<Event>): Option<seq<bv8>>
    decreases |ev|
  {
    if ev == [] then Some([])
    else if |ev| < ByteLength then None
    else
      match DecodeByte(clock, data, ev[..ByteLength])
      case None => None
      case Some(b) =>
        match DecodeWire(clock, data, ev[ByteLength..])
        case None => None
        case Some(bs) => Some([b] + bs)
  }

  /** The top n bits of b as a number, rebuilt MSB first from BitMsb. */
  function TopBits(b: bv8, n: nat): bv8
    requires n <= 8
  {
    if n == 0 then 0 else (TopBits(b, n - 1) << 1) | (if BitMsb(b, n - 1) then 1 else 0)
  }

  // ---------------------------------------------------------------------------
  // Lemmas
  // ---------------------------------------------------------------------------

  /** All eight bits rebuild the byte. */
  lemma TopBitsWhole(b: bv8)
    ensures TopBits(b, 8) == b
  {
    assert TopBits(b, 1) == b >> 7;
    assert TopBits(b, 2) == b >> 6;
    assert TopBits(b, 3) == b >> 5;
    assert TopBits(b, 4) == b >> 4;
    assert TopBits(b, 5) == b >> 3;
    assert TopBits(b, 6) == b >> 2;
    assert TopBits(b, 7) == b >> 1;
  }

  /** A bit period decodes to the bit it was written for. */
  lemma BitGroupDecodes(clock: bv8, data: bv8, bit: bool)
    ensures DecodeBit(clock, data, BitGroup(clock, data, bit)) == Some(bit)
  {
    BitGroupSpelled(clock, data, bit);
  }

  /** The first n bit groups of b decode to the top n bits of b. */
  lemma {:induction false} GroupsRoundTrip(clock: bv8, data: bv8, b: bv8, n: nat)
    requires n <= 8
    ensures DecodeGroups(clock, data, Groups(clock, data, b, n), n) == Some(TopBits(b, n))
  {
    if n > 0 {
      var prefix := Groups(clock, data, b, n - 1);
      var g := BitGroup(clock, data, BitMsb(b, n - 1));
      var ev := Groups(clock, data, b, n);
      assert ev == prefix + g;
      assert ev[..6 * (n - 1)] == prefix;
      assert ev[6 * (n - 1)..] == g;
      GroupsRoundTrip(clock, data, b, n - 1);
      BitGroupDecodes(clock, data, BitMsb(b, n - 1));
    }
  }

  /** The events of writeCharacterDirect(b) decode to b. */
  lemma ByteRoundTrip(clock: bv8, data: bv8, b: bv8)
    ensures DecodeByte(clock, data, ByteEvents(clock, data, b)) == Some(b)
  {
    var ev := ByteEvents(clock, data, b);
    assert ev[..ByteLength - 1] == Groups(clock, data, b, 8);
    GroupsRoundTrip(clock, data, b, 8);
    TopBitsWhole(b);
  }

  /** Every byte ends with the clock high followed by the processing delay. */
  lemma ByteEndsClockHigh(clock: bv8, data: bv8, b: bv8)
    ensures ByteEvents(clock, data, b)[ByteLength - 1] == Wait(ProcessTime)
    ensures ByteEvents(clock, data, b)[ByteLength - 3] == PinWrite(clock, High)
  {
    var ev := ByteEvents(clock, data, b);
    var g := BitGroup(clock, data, BitMsb(b, 7));
    assert ev == Groups(clock, data, b, 7) + g + [Wait(ProcessTime)];
    assert ev[46] == g[4];
  }

  /** The k-th bit in transmission order is bit 7 - k of the byte. */
  lemma BitMsbIsBit(b: bv8, k: nat)
    requires k < 8
    ensures BitMsb(b, k) <==> (b >> (7 - k)) & 1 == 1
  {
    if k == 0 {} else if k == 1 {} else if k == 2 {} else if k == 3 {}
    else if k == 4 {} else if k == 5 {} else if k == 6 {} else { assert MaskAt(7) == 1; }
  }

  /** Events 6k to 6k + 5 of the first n bit groups are the group of the k-th bit. */
  lemma {:induction false} GroupsAt(clock: bv8, data: bv8, b: bv8, n: nat, k: nat)
    requires k < n <= 8
    ensures Groups(clock, data, b, n)[6 * k..6 * k + 6] == BitGroup(clock, data, BitMsb(b, k))
  {
    var prefix := Groups(clock, data, b, n - 1);
    assert Groups(clock, data, b, n) == prefix + BitGroup(clock, data, BitMsb(b, n - 1));
    if k < n - 1 {
      GroupsAt(clock, data, b, n - 1, k);
      assert Groups(clock, data, b, n)[6 * k..6 * k + 6] == prefix[6 * k..6 * k + 6];
    }
  }

  /**
   * Bit period k of writeCharacterDirect(b): the data line is set to bit 7 - k
   * of b, then the clock is pulsed low and back high, with the three delays.
   */
  lemma ByteEventsLayout(clock: bv8, data: bv8, b: bv8, k: nat)
    requires k < 8
    ensures ByteEvents(clock, data, b)[6 * k..6 * k + 6]
      == [ PinWrite(data, if (b >> (7 - k)) & 1 == 1 then High else Low), Wait(DataSetupTime),
           PinWrite(clock, Low), Wait(HalfPeriodTime),
           PinWrite(clock, High), Wait(HalfPeriodLessSetupTime) ]
  {
    GroupsAt(clock, data, b, 8, k);
    assert ByteEvents(clock, data, b)[6 * k..6 * k + 6] == Groups(clock, data, b, 8)[6 * k..6 * k + 6];
    BitMsbIsBit(b, k);
    BitGroupSpelled(clock, data, BitMsb(b, k));
  }

  /** Transmitting two byte strings in turn is transmitting their concatenation. */
  lemma {:induction false} WireAppend(clock: bv8, data: bv8, a: seq<bv8>, b: seq<bv8>)
    ensures Wire(clock, data, a + b) == Wire(clock, data, a) + Wire(clock, data, b)
  {
    if a == [] {
      assert a + b == b;
    } else {
      assert (a + b)[0] == a[0];
      assert (a + b)[1..] == a[1..] + b;
      WireAppend(clock, data, a[1..], b);
      calc {
        Wire(clock, data, a + b);
        ByteEvents(clock, data, a[0]) + Wire(clock, data, a[1..] + b);
        ByteEvents(clock, data, a[0]) + (Wire(clock, data, a[1..]) + Wire(clock, data, b));
        (ByteEvents(clock, data, a[0]) + Wire(clock, data, a[1..])) + Wire(clock, data, b);
      }
    }
  }

  /** Appending to a trace in two steps is appending the two parts at once. */
  lemma AppendAssociates(t: seq<Event>, a: seq<Event>, b: seq<Event>)
    ensures t + a + b == t + (a + b)
  {
  }

  /** One bit group more is the next bit's group appended. */
  lemma GroupsStep(clock: bv8, data: bv8, b: bv8, k: nat)
    requires k < 8
    ensures Groups(clock, data, b, k + 1) == Groups(clock, data, b, k) + BitGroup(clock, data, BitMsb(b, k))
  {
  }

  /**
   * One pass of writeCharacterDirect's loop: with the mask of pass k, the six
   * events it appends are the group of the k-th bit, and the next mask is that
   * of pass k + 1.
   */
  lemma BitPass(start: seq<Event>, before: seq<Event>, after: seq<Event>,
                clock: bv8, data: bv8, b: bv8, mask: bv8, k: nat)
    requires k <= 8 && mask == MaskAt(k) && mask != 0
    requires before == start + Groups(clock, data, b, k)
    requires after == before + [PinWrite(data, if b & mask != 0 then High else Low)]
      + [Wait(DataSetupTime)] + [PinWrite(clock, Low)] + [Wait(HalfPeriodTime)]
      + [PinWrite(clock, High)] + [Wait(HalfPeriodLessSetupTime)]
    ensures k < 8 && mask >> 1 == MaskAt(k + 1)
    ensures after == start + Groups(clock, data, b, k + 1)
  {
    MaskAtEnds(k);
    var g := BitGroup(clock, data, BitMsb(b, k));
    assert after == before + g;
    GroupsStep(clock, data, b, k);
    AppendAssociates(start, Groups(clock, data, b, k), g);
  }

  /**
   * The end of writeCharacterDirect: once the mask is zero all eight groups
   * are out, and with the processing delay the byte's transmission is complete.
   */
  lemma BytePass(start: seq<Event>, bits: seq<Event>, after: seq<Event>,
                 clock: bv8, data: bv8, b: bv8, mask: bv8, k: nat)
    requires k <= 8 && mask == MaskAt(k) && mask == 0
    requires bits == start + Groups(clock, data, b, k)
    requires after == bits + [Wait(ProcessTime)]
    ensures after == start + Wire(clock, data, [b])
  {
    MaskAtEnds(k);
    WireOfOne(clock, data, b);
    AppendAssociates(start, Groups(clock, data, b, 8), [Wait(ProcessTime)]);
  }

  /** One byte on the wire is writeCharacterDirect's events for it. */
  lemma WireOfOne(clock: bv8, data: bv8, b: bv8)
    ensures Wire(clock, data, [b]) == Groups(clock, data, b, 8) + [Wait(ProcessTime)]
  {
    assert [b][1..] == [];
  }

  /** A trace that grew by the transmission of `sent` and then of `more` grew by that of both. */
  lemma SentInTurn(start: seq<Event>, mid: seq<Event>, after: seq<Event>,
                   clock: bv8, data: bv8, sent: seq<bv8>, more: seq<bv8>)
    requires mid == start + Wire(clock, data, sent)
    requires after == mid + Wire(clock, data, more)
    ensures after == start + Wire(clock, data, sent + more)
  {
    WireAppend(clock, data, sent, more);
    AppendAssociates(start, Wire(clock, data, sent), Wire(clock, data, more));
  }

  /** A trace that grew by the transmission of a and then of b grew by that of [a, b]. */
  lemma SentPair(start: seq<Event>, mid: seq<Event>, after: seq<Event>,
                 clock: bv8, data: bv8, a: bv8, b: bv8)
    requires mid == start + Wire(clock, data, [a])
    requires after == mid + Wire(clock, data, [b])
    ensures after == start + Wire(clock, data, [a, b])
  {
    SentInTurn(start, mid, after, clock, data, [a], [b]);
    assert [a] + [b] == [a, b];
  }

  /** The decoder recovers exactly the bytes that were transmitted. */
  lemma {:induction false} WireRoundTrip(clock: bv8, data: bv8, bs: seq<bv8>)
    ensures DecodeWire(clock, data, Wire(clock, data, bs)) == Some(bs)
  {
    if bs != [] {
      var ev := Wire(clock, data, bs);
      assert ev == ByteEvents(clock, data, bs[0]) + Wire(clock, data, bs[1..]);
      assert ev[..ByteLength] == ByteEvents(clock, data, bs[0]);
      assert ev[ByteLength..] == Wire(clock, data, bs[1..]);
      ByteRoundTrip(clock, data, bs[0]);
      WireRoundTrip(clock, data, bs[1..]);
      assert [bs[0]] + bs[1..] == bs;
    }
  }

  /** Different byte strings leave different traces on the wire. */
  lemma WireInjective(clock: bv8, data: bv8, a: seq<bv8>, b: seq<bv8>)
    requires Wire(clock, data, a) == Wire(clock, data, b)
    ensures a == b
  {
    WireRoundTrip(clock, data, a);
    WireRoundTrip(clock, data, b);
  }
}
