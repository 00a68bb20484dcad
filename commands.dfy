/**
 * What the driver's composite operations send: the cursor address of setCursor,
 * the slot byte of createChar, the remapping of write, and the bootstrap of
 * begin. Each is a function of its inputs and the header constants, and the
 * lemmas state the properties the driver promises of it.
 */
module Commands {
  import opened Serial
  import opened Header

  // ---------------------------------------------------------------------------
  // setCursor
  // ---------------------------------------------------------------------------

  /**
   * The 0-based cell setCursor(column, row) selects: `row * columns + column`,
   * truncated to the uint8_t `address`, and replaced by 0 when it is not below
   * the number of cells.
   */
  function CursorAddress(columns: Uint8, cells: int, column: Uint8, row: Uint8): (a: Uint8)
    ensures cells >= 1 ==> a < cells
  {
    var address := (row * columns + column) % 256;
    if address >= cells then 0 else address
  }

  /**
   * The argument byte setCursor sends: the address made 1-based, passed to
   * writeCharacterDirect as a uint8_t.
   */
  function CursorByte(columns: Uint8, cells: int, column: Uint8, row: Uint8): bv8 {
    ToUint8(CursorAddress(columns, cells, column, row) + 1)
  }

  /** A cell on the screen whose linear index fits a byte is addressed by that index. */
  lemma CursorOnScreen(columns: Uint8, cells: int, column: Uint8, row: Uint8)
    requires row * columns + column < cells
    requires row * columns + column < 256
    ensures CursorAddress(columns, cells, column, row) == row * columns + column
  {
    var index := row * columns + column;
    assert index % 256 == index;
  }

  /** A cell past the end of the screen (and below 256) sends the cursor home. */
  lemma CursorOffScreen(columns: Uint8, cells: int, column: Uint8, row: Uint8)
    requires cells <= row * columns + column < 256
    ensures CursorAddress(columns, cells, column, row) == 0
  {
  }

  /**
   * On a display of at most 255 cells the byte sent is the address plus one,
   * a 1-based cell number between 1 and the number of cells.
   */
  lemma CursorByteOneBased(columns: Uint8, cells: int, column: Uint8, row: Uint8)
    requires 1 <= cells <= 255
    ensures CursorByte(columns, cells, column, row) as int == CursorAddress(columns, cells, column, row) + 1
    ensures 1 <= CursorByte(columns, cells, column, row) as int <= cells
  {
    ToUint8Value(CursorAddress(columns, cells, column, row) + 1);
  }

  /**
   * Because the linear index is truncated to a byte before the range test, an
   * off-screen cell can alias an on-screen one: on a 16x2 display, column 1 of
   * row 16 is cell 257, which wraps to cell 1 instead of going home.
   */
  lemma CursorWrapAliases()
    ensures 16 * 16 + 1 >= 16 * 2
    ensures CursorAddress(16, 16 * 2, 1, 16) == 1
    ensures CursorByte(16, 16 * 2, 1, 16) == 2
  {
  }

  /**
   * Address 255 is selected only when more than 255 cells are configured, and
   * it is sent as byte 0: `address + 1` wraps as a uint8_t.
   */
  lemma CursorByteWraps(columns: Uint8, cells: int, column: Uint8, row: Uint8)
    requires CursorAddress(columns, cells, column, row) == 255
    ensures cells > 255
    ensures CursorByte(columns, cells, column, row) == 0
  {
    ByteFits(0);
  }

  /** On a 255x2 display, setCursor(0, 1) selects address 255 and sends byte 0. */
  lemma CursorWideScreenWraps()
    ensures CursorAddress(255, 255 * 2, 0, 1) == 255
    ensures CursorByte(255, 255 * 2, 0, 1) == 0
  {
    assert CursorAddress(255, 255 * 2, 0, 1) == 255;
    CursorByteWraps(255, 255 * 2, 0, 1);
  }

  /**
   * home() is setCursor(0, 0): the address is 0 whether or not it is on the
   * screen, so it always sends cell number 1.
   */
  lemma HomeIsCellOne(columns: Uint8, cells: int)
    ensures CursorAddress(columns, cells, 0, 0) == 0
    ensures CursorByte(columns, cells, 0, 0) == 1
  {
    ByteFits(1);
  }

  /** On a 20x2 display, setCursor(5, 1) sends cell number 26. */
  lemma CursorTwentyByTwo()
    ensures CursorByte(20, 20 * 2, 5, 1) == 26
  {
    assert CursorAddress(20, 20 * 2, 5, 1) == 25;
    ByteFits(26);
  }

  // ---------------------------------------------------------------------------
  // createChar: the slot
  // ---------------------------------------------------------------------------

  /** `characterIndex &= NUM_CUSTOM_CHARACTERS - 1`. */
  function SlotIndex(cfg: Config, characterIndex: bv8): (r: bv8)
    ensures r <= characterIndex && r <= cfg.numCustomCharacters - 1
  {
    characterIndex & (cfg.numCustomCharacters - 1)
  }

  /** The slot byte createChar sends: the masked index plus one, as a uint8_t (wrapping). */
  function SlotByte(cfg: Config, characterIndex: bv8): bv8
  {
    SlotIndex(cfg, characterIndex) + 1
  }

  /**
   * createChar's events, as its steps append them: the load command, the slot
   * byte, then the column bytes.
   */
  lemma GlyphSent(cfg: Config, clock: bv8, data: bv8, characterIndex: bv8,
                  start: seq<Event>, loaded: seq<Event>, announced: seq<Event>, after: seq<Event>,
                  columns: seq<bv8>)
    requires loaded == start + Wire(clock, data, [cfg.loadUserCharacter])
    requires announced == loaded + Wire(clock, data, [(characterIndex & (cfg.numCustomCharacters - 1)) + 1])
    requires after == announced + Wire(clock, data, columns)
    ensures after == start + Wire(clock, data, [cfg.loadUserCharacter, SlotByte(cfg, characterIndex)] + columns)
  {
    SentPair(start, loaded, announced, clock, data, cfg.loadUserCharacter, SlotByte(cfg, characterIndex));
    SentInTurn(start, announced, after, clock, data, [cfg.loadUserCharacter, SlotByte(cfg, characterIndex)], columns);
  }

  /** Masking with the slot count minus one wraps the index modulo the slot count. */
  lemma SlotIndexWraps(cfg: Config, characterIndex: bv8)
    requires cfg.Valid()
    ensures SlotIndex(cfg, characterIndex) == characterIndex % cfg.numCustomCharacters
    ensures characterIndex < cfg.numCustomCharacters ==> SlotIndex(cfg, characterIndex) == characterIndex
  {
    MaskIsModulo(characterIndex, cfg.numCustomCharacters);
  }

  /**
   * The slot byte is a 1-based slot number: the index modulo the slot count,
   * plus one, between 1 and the slot count.
   */
  lemma SlotByteOneBased(cfg: Config, characterIndex: bv8)
    requires cfg.Valid()
    ensures SlotByte(cfg, characterIndex) == characterIndex % cfg.numCustomCharacters + 1
    ensures 1 <= SlotByte(cfg, characterIndex) <= cfg.numCustomCharacters
  {
    SlotIndexWraps(cfg, characterIndex);
  }

  // ---------------------------------------------------------------------------
  // write
  // ---------------------------------------------------------------------------

  /** The bytes write(character) sends; their number is its return value. */
  function WriteBytes(cfg: Config, character: bv8): (r: seq<bv8>)
    ensures |r| <= 1
  {
    if character < cfg.numCustomCharacters then [character + cfg.customCharacterTranslateOffset]
    else if character < 0x20 then []
    else [character]
  }

  /**
   * The three cases of write: a custom slot is shifted by the translate offset
   * (wrapping as a uint8_t), another code below space is dropped, anything else
   * is sent as it is. Exactly the dropped codes send nothing.
   */
  lemma WriteCases(cfg: Config, c: bv8)
    ensures c < cfg.numCustomCharacters ==>
      WriteBytes(cfg, c) == [c + cfg.customCharacterTranslateOffset]
    ensures cfg.numCustomCharacters <= c && c < 0x20 <==> WriteBytes(cfg, c) == []
    ensures cfg.numCustomCharacters <= c && c >= 0x20 ==> WriteBytes(cfg, c) == [c]
    ensures |WriteBytes(cfg, c)| == if cfg.numCustomCharacters <= c && c < 0x20 then 0 else 1
  {
  }

  /** write never forwards a control code below space except as a remapped custom glyph. */
  lemma WriteDropsControlCodes(cfg: Config, c: bv8)
    requires cfg.numCustomCharacters <= c
    ensures forall b :: b in WriteBytes(cfg, c) ==> b >= 0x20 && b == c
    ensures |WriteBytes(cfg, c)| == (if c < 0x20 then 0 else 1)
  {
  }

  // ---------------------------------------------------------------------------
  // The constructor
  // ---------------------------------------------------------------------------

  /**
   * The pin set-up of the constructor: clock high, data low, each made an
   * output, and the reset line low and an output when one is wired.
   */
  function PinSetup(cfg: Config, clock: bv8, data: bv8, resetPin: bv8): (r: seq<Event>)
    ensures |r| == if HasResetPin(cfg, resetPin) then 6 else 4
  {
    [PinWrite(clock, High), PinModeOutput(clock), PinWrite(data, Low), PinModeOutput(data)]
    + if HasResetPin(cfg, resetPin) then [PinWrite(resetPin, Low), PinModeOutput(resetPin)] else []
  }

  /**
   * On distinct pins, the constructor leaves clock high and data low, and
   * touches the reset pin (a write or a pin-mode change) exactly when one is
   * wired, driving it low and making it an output.
   */
  lemma PinSetupTouchesResetIffWired(cfg: Config, clock: bv8, data: bv8, resetPin: bv8)
    requires resetPin != clock && resetPin != data
    ensures (exists e :: e in PinSetup(cfg, clock, data, resetPin) && (e.PinWrite? || e.PinModeOutput?) && e.pin == resetPin)
      <==> HasResetPin(cfg, resetPin)
    ensures forall e :: e in PinSetup(cfg, clock, data, resetPin) && e.PinWrite? && e.pin == resetPin ==> e.level == Low
    ensures HasResetPin(cfg, resetPin) ==> PinModeOutput(resetPin) in PinSetup(cfg, clock, data, resetPin)
    ensures PinWrite(clock, High) in PinSetup(cfg, clock, data, resetPin)
    ensures PinWrite(data, Low) in PinSetup(cfg, clock, data, resetPin)
  {
    var setup := PinSetup(cfg, clock, data, resetPin);
    if HasResetPin(cfg, resetPin) {
      assert setup[4] == PinWrite(resetPin, Low);
      assert setup[5] == PinModeOutput(resetPin);
    }
    assert setup[0] == PinWrite(clock, High);
    assert setup[2] == PinWrite(data, Low);
  }

  // ---------------------------------------------------------------------------
  // begin
  // ---------------------------------------------------------------------------

  /** Whether a reset line is wired. */
  predicate HasResetPin(cfg: Config, resetPin: bv8) {
    resetPin != cfg.doNotUsePin
  }

  /** The hardware reset pulse of begin: present only when a reset pin is wired. */
  function ResetPulse(cfg: Config, resetPin: bv8): (r: seq<Event>)
    ensures |r| == if HasResetPin(cfg, resetPin) then 3 else 0
  {
    if HasResetPin(cfg, resetPin)
    then [PinWrite(resetPin, High), Wait(ResetHoldTime), PinWrite(resetPin, Low)]
    else []
  }

  /** The bytes begin sends after the settle delay. */
  function BeginBytes(cfg: Config, resetPin: bv8): (r: seq<bv8>)
    ensures |r| == if HasResetPin(cfg, resetPin) then 2 else 3
  {
    [cfg.setInputOutputMode, 0] + if HasResetPin(cfg, resetPin) then [] else [cfg.clearEntireDisplay]
  }

  /** Everything begin does on the pins. */
  function BeginEvents(cfg: Config, clock: bv8, data: bv8, resetPin: bv8): (r: seq<Event>)
    ensures |r| == |ResetPulse(cfg, resetPin)| + 1 + ByteLength * |BeginBytes(cfg, resetPin)|
  {
    ResetPulse(cfg, resetPin) + [Wait(PostResetDelayTime)] + Wire(clock, data, BeginBytes(cfg, resetPin))
  }

  /** The three pin steps of begin's reset branch append exactly the reset pulse. */
  lemma PulseSent(cfg: Config, resetPin: bv8, start: seq<Event>, after: seq<Event>)
    requires HasResetPin(cfg, resetPin)
    requires after == start + [PinWrite(resetPin, High)] + [Wait(ResetHoldTime)] + [PinWrite(resetPin, Low)]
    ensures after == start + ResetPulse(cfg, resetPin)
  {
  }

  /**
   * begin's events, as its steps append them: the reset pulse (empty without
   * a reset line) and the settle delay, then the transmission of BeginBytes.
   */
  lemma BeginDone(cfg: Config, clock: bv8, data: bv8, resetPin: bv8,
                  start: seq<Event>, settled: seq<Event>, selected: seq<Event>,
                  configured: seq<Event>, after: seq<Event>)
    requires settled == start + ResetPulse(cfg, resetPin) + [Wait(PostResetDelayTime)]
    requires selected == settled + Wire(clock, data, [cfg.setInputOutputMode])
    requires configured == selected + Wire(clock, data, [0])
    requires after == if HasResetPin(cfg, resetPin) then configured
      else configured + Wire(clock, data, [cfg.clearEntireDisplay])
    ensures after == start + BeginEvents(cfg, clock, data, resetPin)
  {
    SentPair(settled, selected, configured, clock, data, cfg.setInputOutputMode, 0);
    if HasResetPin(cfg, resetPin) {
      assert BeginBytes(cfg, resetPin) == [cfg.setInputOutputMode, 0];
    } else {
      SentInTurn(settled, configured, after, clock, data, [cfg.setInputOutputMode, 0], [cfg.clearEntireDisplay]);
    }
    var head := ResetPulse(cfg, resetPin) + [Wait(PostResetDelayTime)];
    assert settled == start + head;
    AppendAssociates(start, head, Wire(clock, data, BeginBytes(cfg, resetPin)));
  }

  /** After the reset pulse and the settle delay, begin transmits exactly BeginBytes. */
  lemma BeginTransmits(cfg: Config, clock: bv8, data: bv8, resetPin: bv8)
    ensures |BeginEvents(cfg, clock, data, resetPin)| > |ResetPulse(cfg, resetPin)|
    ensures BeginEvents(cfg, clock, data, resetPin)[..|ResetPulse(cfg, resetPin)| + 1]
      == ResetPulse(cfg, resetPin) + [Wait(PostResetDelayTime)]
    ensures DecodeWire(clock, data, BeginEvents(cfg, clock, data, resetPin)[|ResetPulse(cfg, resetPin)| + 1..])
      == Some(BeginBytes(cfg, resetPin))
  {
    var w := Wire(clock, data, BeginBytes(cfg, resetPin));
    var head := ResetPulse(cfg, resetPin) + [Wait(PostResetDelayTime)];
    assert BeginEvents(cfg, clock, data, resetPin) == head + w;
    assert (head + w)[..|head|] == head;
    assert (head + w)[|head|..] == w;
    WireRoundTrip(clock, data, BeginBytes(cfg, resetPin));
  }

  /**
   * With a reset pin, begin asserts reset, holds it, releases it and settles,
   * in that order, and only then sends the I/O-mode command with argument 0.
   */
  lemma BeginWithResetPin(cfg: Config, clock: bv8, data: bv8, resetPin: bv8)
    requires HasResetPin(cfg, resetPin)
    ensures |BeginEvents(cfg, clock, data, resetPin)| >= 4
    ensures BeginEvents(cfg, clock, data, resetPin)[..4]
      == [PinWrite(resetPin, High), Wait(ResetHoldTime), PinWrite(resetPin, Low), Wait(PostResetDelayTime)]
    ensures DecodeWire(clock, data, BeginEvents(cfg, clock, data, resetPin)[4..])
      == Some([cfg.setInputOutputMode, 0])
  {
    assert |ResetPulse(cfg, resetPin)| + 1 == 4;
    assert BeginBytes(cfg, resetPin) == [cfg.setInputOutputMode, 0];
    BeginTransmits(cfg, clock, data, resetPin);
  }

  /**
   * Without a reset pin, begin touches no pin before the settle delay, then sends
   * the I/O-mode command with argument 0 followed by a clear.
   */
  lemma BeginWithoutResetPin(cfg: Config, clock: bv8, data: bv8, resetPin: bv8)
    requires !HasResetPin(cfg, resetPin)
    ensures |BeginEvents(cfg, clock, data, resetPin)| >= 1
    ensures BeginEvents(cfg, clock, data, resetPin)[0] == Wait(PostResetDelayTime)
    ensures DecodeWire(clock, data, BeginEvents(cfg, clock, data, resetPin)[1..])
      == Some([cfg.setInputOutputMode, 0, cfg.clearEntireDisplay])
  {
    assert |ResetPulse(cfg, resetPin)| + 1 == 1;
    assert BeginBytes(cfg, resetPin) == [cfg.setInputOutputMode, 0, cfg.clearEntireDisplay];
    BeginTransmits(cfg, clock, data, resetPin);
    assert BeginEvents(cfg, clock, data, resetPin)[..1] == [Wait(PostResetDelayTime)];
  }

  /** begin sends a clear, as its third and last byte, exactly when no reset pin is wired. */
  lemma BeginClearsIffNoResetPin(cfg: Config, resetPin: bv8)
    ensures |BeginBytes(cfg, resetPin)| == 3 <==> !HasResetPin(cfg, resetPin)
    ensures |BeginBytes(cfg, resetPin)| == 2 <==> HasResetPin(cfg, resetPin)
    ensures BeginBytes(cfg, resetPin)[..2] == [cfg.setInputOutputMode, 0]
    ensures !HasResetPin(cfg, resetPin) ==> BeginBytes(cfg, resetPin)[2] == cfg.clearEntireDisplay
  {
  }
}
