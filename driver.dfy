/**
 * The FutabaVFD162S class. The display is driven by bit-banging a synchronous
 * serial line; the model records every pin write, pin-mode change and labelled
 * delay in the append-only `trace`, and each method states the events it
 * appends in terms of the functions of Serial, Commands and Glyph.
 */
module Driver {
  import opened Serial
  import opened Header
  import opened Commands
  import opened Glyph

  class FutabaVfd {
    /** The header constants the driver was built with. */
    const cfg: Config
    const clockPin: bv8
    const dataPin: bv8
    const resetPin: bv8

    /** The screen geometry recorded by begin. */
    var numDisplayColumns: Uint8
    var numDisplayRows: int
    var numDisplayCharacters: int

    /** Everything the driver has done on the pins, oldest first. */
    var trace: seq<Event>

    /**
     * The cell count is the number of columns times the number of rows. The
     * constructor and Begin establish it; no other method relies on it.
     */
    ghost predicate Valid()
      reads this
    {
      numDisplayCharacters == numDisplayColumns * numDisplayRows
    }

    /**
     * Records the pins, sets a 1x1 screen, drives clock high and data low and
     * makes both outputs, and does the same (low) for a wired reset line.
     */
    constructor (cfg: Config, clockPin: bv8, dataPin: bv8, resetPin: bv8)
      ensures Valid()
      ensures this.cfg == cfg && this.clockPin == clockPin && this.dataPin == dataPin && this.resetPin == resetPin
      ensures numDisplayColumns == 1 && numDisplayRows == 1 && numDisplayCharacters == 1
      ensures trace == PinSetup(cfg, clockPin, dataPin, resetPin)
    {
      this.cfg := cfg;
      this.clockPin := clockPin;
      this.dataPin := dataPin;
      this.resetPin := resetPin;
      numDisplayColumns := 1;
      numDisplayRows := 1;
      numDisplayCharacters := 1 * 1;
      trace := [];
      new;
      DigitalWrite(clockPin, High);
      PinMode(clockPin);
      DigitalWrite(dataPin, Low);
      PinMode(dataPin);
      if resetPin != cfg.doNotUsePin {
        DigitalWrite(resetPin, Low);
        PinMode(resetPin);
      }
    }

    /** digitalWrite(pin, level). */
    method DigitalWrite(pin: bv8, level: Level)
      modifies this`trace
      ensures trace == old(trace) + [PinWrite(pin, level)]
    {
      trace := trace + [PinWrite(pin, level)];
    }

    /** pinMode(pin, OUTPUT). */
    method PinMode(pin: bv8)
      modifies this`trace
      ensures trace == old(trace) + [PinModeOutput(pin)]
    {
      trace := trace + [PinModeOutput(pin)];
    }

    /** timingDelay(d). */
    method TimingDelay(d: Delay)
      modifies this`trace
      ensures trace == old(trace) + [Wait(d)]
    {
      trace := trace + [Wait(d)];
    }

    /**
     * Sends one byte most significant bit first: for each bit, the data line is
     * set and the clock is pulsed low and back high.
     */
    method WriteCharacterDirect(character: bv8)
      modifies this`trace
      ensures trace == old(trace) + Wire(clockPin, dataPin, [character])
    {
      var mask: bv8 := 0x80;
      ghost var k: nat := 0;
      while mask != 0
        invariant k <= 8
        invariant mask == MaskAt(k)
        invariant trace == old(trace) + Groups(clockPin, dataPin, character, k)
        decreases 8 - k
      {
        ghost var before := trace;
        DigitalWrite(dataPin, if character & mask != 0 then High else Low);
        TimingDelay(DataSetupTime);
        DigitalWrite(clockPin, Low);
        TimingDelay(HalfPeriodTime);
        DigitalWrite(clockPin, High);
        TimingDelay(HalfPeriodLessSetupTime);
        BitPass(old(trace), before, trace, clockPin, dataPin, character, mask, k);
        mask := mask >> 1;
        k := k + 1;
      }
      ghost var bits := trace;
      TimingDelay(ProcessTime);
      BytePass(old(trace), bits, trace, clockPin, dataPin, character, mask, k);
    }

    /**
     * Records the geometry, pulses a wired reset line, waits for the display,
     * selects I/O mode 0 and, without a reset line, clears the screen.
     */
    method Begin(numColumns: Uint8, numRows: int)
      modifies this
      ensures Valid()
      ensures numDisplayColumns == numColumns && numDisplayRows == numRows
      ensures numDisplayCharacters == numColumns * numRows
      ensures trace == old(trace) + BeginEvents(cfg, clockPin, dataPin, resetPin)
    {
      numDisplayColumns := numColumns;
      numDisplayRows := numRows;
      numDisplayCharacters := numColumns * numRows;
      ResetAndConfigure();
    }

    /**
     * The pin work of begin, after it has recorded the geometry: the reset
     * pulse when a reset line is wired, the settle delay, I/O mode 0 and,
     * without a reset line, a clear.
     */
    method ResetAndConfigure()
      modifies this`trace
      ensures trace == old(trace) + BeginEvents(cfg, clockPin, dataPin, resetPin)
    {
      if resetPin != cfg.doNotUsePin {
        DigitalWrite(resetPin, High);
        TimingDelay(ResetHoldTime);
        DigitalWrite(resetPin, Low);
        PulseSent(cfg, resetPin, old(trace), trace);
      }
      TimingDelay(PostResetDelayTime);
      ghost var settled := trace;
      WriteCharacterDirect(cfg.setInputOutputMode);
      ghost var selected := trace;
      WriteCharacterDirect(0);
      ghost var configured := trace;
      if resetPin == cfg.doNotUsePin {
        Clear();
      }
      BeginDone(cfg, clockPin, dataPin, resetPin, old(trace), settled, selected, configured, trace);
    }

    /** Sends the clear-display command. */
    method Clear()
      modifies this`trace
      ensures trace == old(trace) + Wire(clockPin, dataPin, [cfg.clearEntireDisplay])
    {
      WriteCharacterDirect(cfg.clearEntireDisplay);
    }

    /** Moves the cursor to cell 0, as setCursor(0, 0). */
    method Home()
      modifies this`trace
      ensures trace == old(trace)
        + Wire(clockPin, dataPin, [cfg.setCursorPosition, CursorByte(numDisplayColumns, numDisplayCharacters, 0, 0)])
      ensures trace == old(trace) + Wire(clockPin, dataPin, [cfg.setCursorPosition, 1])
    {
      SetCursor(0, 0);
      HomeIsCellOne(numDisplayColumns, numDisplayCharacters);
    }

    /**
     * Sends the set-cursor command and the 1-based cell number of (column, row),
     * computed in uint8_t and sent home when it is not on the screen.
     */
    method SetCursor(column: Uint8, row: Uint8)
      modifies this`trace
      ensures trace == old(trace)
        + Wire(clockPin, dataPin, [cfg.setCursorPosition, CursorByte(numDisplayColumns, numDisplayCharacters, column, row)])
    {
      var address: Uint8 := (row * numDisplayColumns + column) % 256;
      if address >= numDisplayCharacters {
        address := 0;
      }
      assert address == CursorAddress(numDisplayColumns, numDisplayCharacters, column, row);
      WriteCharacterDirect(cfg.setCursorPosition);
      ghost var mid := trace;
      WriteCharacterDirect(ToUint8(address + 1));
      SentPair(old(trace), mid, trace, clockPin, dataPin, cfg.setCursorPosition, ToUint8(address + 1));
    }

    /**
     * Loads a glyph into a custom slot: the load command, the 1-based slot
     * number, then the five column bytes of the rows in `pixels`.
     */
    method CreateChar(characterIndex: bv8, pixels: array<bv8>)
      requires cfg.characterPixelHeight <= pixels.Length
      modifies this`trace
      ensures trace == old(trace) + Wire(clockPin, dataPin,
        [cfg.loadUserCharacter, SlotByte(cfg, characterIndex)] + Columns(pixels[..], cfg.characterPixelHeight))
    {
      var height := cfg.characterPixelHeight;
      ghost var rows := pixels[..];
      WriteCharacterDirect(cfg.loadUserCharacter);
      ghost var mid := trace;
      var index := characterIndex & (cfg.numCustomCharacters - 1);
      WriteCharacterDirect(index + 1);
      ghost var announced := trace;
      ghost var sent: seq<bv8> := [];
      var testBit: bv8 := 0x10;
      ghost var j: nat := 0;
      while testBit != 0
        invariant j <= 5 && testBit == TestBit(j)
        invariant sent == Columns(rows, height)[..j]
        invariant trace == announced + Wire(clockPin, dataPin, sent)
        decreases 5 - j
      {
        ghost var before := trace;
        var currentByte := ColumnByte(pixels, testBit);
        WriteCharacterDirect(currentByte);
        ColumnPass(rows, height, sent, testBit, j, currentByte);
        SentInTurn(announced, before, trace, clockPin, dataPin, sent, [currentByte]);
        sent := sent + [currentByte];
        testBit := testBit >> 1;
        j := j + 1;
      }
      ColumnsDone(rows, height, sent, testBit, j);
      GlyphSent(cfg, clockPin, dataPin, characterIndex, old(trace), mid, announced, trace, sent);
    }

    /**
     * The inner loop of createChar: starting from the sentinel 0b10000000, each
     * row shifts the byte right and sets its top bit when the row has the
     * pixel selected by `testBit`.
     */
    method ColumnByte(pixels: array<bv8>, testBit: bv8) returns (currentByte: bv8)
      requires cfg.characterPixelHeight <= pixels.Length
      ensures currentByte == ColumnAcc(pixels[..], testBit, cfg.characterPixelHeight)
    {
      currentByte := 0x80;
      var i: nat := 0;
      while i < cfg.characterPixelHeight
        invariant i <= cfg.characterPixelHeight
        invariant currentByte == ColumnAcc(pixels[..], testBit, i)
      {
        ghost var previous := currentByte;
        currentByte := currentByte >> 1;
        if pixels[i] & testBit != 0 {
          currentByte := currentByte | 0x80;
        }
        ColumnStep(pixels[..], testBit, i, previous, currentByte);
        i := i + 1;
      }
    }

    /**
     * Prints one character: a custom slot is remapped to its device code,
     * another code below space is dropped, anything else is sent. Returns the
     * number of bytes sent.
     */
    method Write(character: bv8) returns (written: nat)
      modifies this`trace
      ensures written == |WriteBytes(cfg, character)|
      ensures written <= 1
      ensures trace == old(trace) + Wire(clockPin, dataPin, WriteBytes(cfg, character))
    {
      WriteCases(cfg, character);
      var c := character;
      if c < cfg.numCustomCharacters {
        c := c + cfg.customCharacterTranslateOffset;
      } else if c < 0x20 {
        return 0;
      }
      WriteCharacterDirect(c);
      return 1;
    }

    /** Sets the brightness to `level`. */
    method SetBrightness(level: bv8)
      modifies this`trace
      ensures trace == old(trace) + Wire(clockPin, dataPin, [cfg.setDisplayBrightness, level])
    {
      WriteCharacterDirect(cfg.setDisplayBrightness);
      ghost var mid := trace;
      WriteCharacterDirect(level);
      SentPair(old(trace), mid, trace, clockPin, dataPin, cfg.setDisplayBrightness, level);
    }

    /** Cursor mode 1: advance after each character. */
    method SetCursorModeAutoInc()
      modifies this`trace
      ensures trace == old(trace) + Wire(clockPin, dataPin, [cfg.setCursorMode, 0x01])
    {
      WriteCharacterDirect(cfg.setCursorMode);
      ghost var mid := trace;
      WriteCharacterDirect(0x01);
      SentPair(old(trace), mid, trace, clockPin, dataPin, cfg.setCursorMode, 0x01);
    }

    /** Cursor mode 2: move back after each character. */
    method SetCursorModeAutoDec()
      modifies this`trace
      ensures trace == old(trace) + Wire(clockPin, dataPin, [cfg.setCursorMode, 0x02])
    {
      WriteCharacterDirect(cfg.setCursorMode);
      ghost var mid := trace;
      WriteCharacterDirect(0x02);
      SentPair(old(trace), mid, trace, clockPin, dataPin, cfg.setCursorMode, 0x02);
    }

    /** Cursor mode 3: stay in place. */
    method SetCursorModeNonInc()
      modifies this`trace
      ensures trace == old(trace) + Wire(clockPin, dataPin, [cfg.setCursorMode, 0x03])
    {
      WriteCharacterDirect(cfg.setCursorMode);
      ghost var mid := trace;
      WriteCharacterDirect(0x03);
      SentPair(old(trace), mid, trace, clockPin, dataPin, cfg.setCursorMode, 0x03);
    }

    /** Marks cells `start` to `stop` as flashing. */
    method SetFlashPositions(start: bv8, stop: bv8)
      modifies this`trace
      ensures trace == old(trace) + Wire(clockPin, dataPin, [cfg.setFlashPosition, start, stop])
    {
      WriteCharacterDirect(cfg.setFlashPosition);
      ghost var mid := trace;
      WriteCharacterDirect(start);
      SentPair(old(trace), mid, trace, clockPin, dataPin, cfg.setFlashPosition, start);
      ghost var positioned := trace;
      WriteCharacterDirect(stop);
      SentInTurn(old(trace), positioned, trace, clockPin, dataPin, [cfg.setFlashPosition, start], [stop]);
      assert [cfg.setFlashPosition, start] + [stop] == [cfg.setFlashPosition, start, stop];
    }

    /** Flash mode 2: flashing on. */
    method SetFlashModeEnabled()
      modifies this`trace
      ensures trace == old(trace) + Wire(clockPin, dataPin, [cfg.flashMode, 0x02])
    {
      WriteCharacterDirect(cfg.flashMode);
      ghost var mid := trace;
      WriteCharacterDirect(0x02);
      SentPair(old(trace), mid, trace, clockPin, dataPin, cfg.flashMode, 0x02);
    }

    /** Flash mode 1: flashing off. */
    method SetFlashModeDisabled()
      modifies this`trace
      ensures trace == old(trace) + Wire(clockPin, dataPin, [cfg.flashMode, 0x01])
    {
      WriteCharacterDirect(cfg.flashMode);
      ghost var mid := trace;
      WriteCharacterDirect(0x01);
      SentPair(old(trace), mid, trace, clockPin, dataPin, cfg.flashMode, 0x01);
    }

    /** Flash rate 0x01: 50 Hz. */
    method SetFlashRate50()
      modifies this`trace
      ensures trace == old(trace) + Wire(clockPin, dataPin, [cfg.setFlashRate, 0x01])
    {
      WriteCharacterDirect(cfg.setFlashRate);
      ghost var mid := trace;
      WriteCharacterDirect(0x01);
      SentPair(old(trace), mid, trace, clockPin, dataPin, cfg.setFlashRate, 0x01);
    }

    /** Flash rate 0x30: 1 Hz. */
    method SetFlashRate1()
      modifies this`trace
      ensures trace == old(trace) + Wire(clockPin, dataPin, [cfg.setFlashRate, 0x30])
    {
      WriteCharacterDirect(cfg.setFlashRate);
      ghost var mid := trace;
      WriteCharacterDirect(0x30);
      SentPair(old(trace), mid, trace, clockPin, dataPin, cfg.setFlashRate, 0x30);
    }

    /** Flash rate 0xFF: 1/10 Hz. */
    method SetFlashRateTenth()
      modifies this`trace
      ensures trace == old(trace) + Wire(clockPin, dataPin, [cfg.setFlashRate, 0xFF])
    {
      WriteCharacterDirect(cfg.setFlashRate);
      ghost var mid := trace;
      WriteCharacterDirect(0xFF);
      SentPair(old(trace), mid, trace, clockPin, dataPin, cfg.setFlashRate, 0xFF);
    }

    /** Font 1: Western. */
    method SetFontWestern()
      modifies this`trace
      ensures trace == old(trace) + Wire(clockPin, dataPin, [cfg.selectFont, 0x01])
    {
      WriteCharacterDirect(cfg.selectFont);
      ghost var mid := trace;
      WriteCharacterDirect(0x01);
      SentPair(old(trace), mid, trace, clockPin, dataPin, cfg.selectFont, 0x01);
    }

    /** Font 2: Katakana. */
    method SetFontKatakana()
      modifies this`trace
      ensures trace == old(trace) + Wire(clockPin, dataPin, [cfg.selectFont, 0x02])
    {
      WriteCharacterDirect(cfg.selectFont);
      ghost var mid := trace;
      WriteCharacterDirect(0x02);
      SentPair(old(trace), mid, trace, clockPin, dataPin, cfg.selectFont, 0x02);
    }

    /** Buffer mode 1: characters appear as they are written. */
    method SetNonBufferedMode()
      modifies this`trace
      ensures trace == old(trace) + Wire(clockPin, dataPin, [cfg.setBufferedMode, 0x01])
    {
      WriteCharacterDirect(cfg.setBufferedMode);
      ghost var mid := trace;
      WriteCharacterDirect(0x01);
      SentPair(old(trace), mid, trace, clockPin, dataPin, cfg.setBufferedMode, 0x01);
    }

    /** Buffer mode 2: characters are held until printMessageBuffer. */
    method SetBufferedMode()
      modifies this`trace
      ensures trace == old(trace) + Wire(clockPin, dataPin, [cfg.setBufferedMode, 0x02])
    {
      WriteCharacterDirect(cfg.setBufferedMode);
      ghost var mid := trace;
      WriteCharacterDirect(0x02);
      SentPair(old(trace), mid, trace, clockPin, dataPin, cfg.setBufferedMode, 0x02);
    }

    /** Shows the characters held in buffered mode. */
    method PrintMessageBuffer()
      modifies this`trace
      ensures trace == old(trace) + Wire(clockPin, dataPin, [cfg.printMessageBuffer])
    {
      WriteCharacterDirect(cfg.printMessageBuffer);
    }
  }
}
