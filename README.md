# FutabaVFD162S driver, modelled in Dafny

`FutabaVFD162S` is an Arduino driver for a Futaba 16x2 vacuum-fluorescent
display. It only writes to the display. Every operation comes down to
`writeCharacterDirect`, which sends one byte most significant bit first. It does
this by bit-banging a clock line and a data line, with fixed delays in between.
For each bit it sets the data line, then pulses the clock low and back high.

On top of that primitive the driver offers:
- a constructor and `begin`, which set up the pins and reset and configure the
  display;
- `clear` and `home`;
- `setCursor`, which computes a 1-based cell number from a column and a row;
- `createChar`, which rotates an 8-row glyph bitmap into five column bytes;
- `write`, which remaps custom-glyph codes and drops control codes;
- a set of fixed two- and three-byte commands: brightness, cursor mode, flash
  positions, mode and rate, font, buffered mode and print-buffer.

The model is the class `Driver.FutabaVfd`. Its field `trace` is an append-only
log of what the driver does on the pins:
- each pin write (`PinWrite`);
- each `pinMode(OUTPUT)` (`PinModeOutput`);
- each labelled delay (`Wait`).

Each method states exactly which events it appends.
- `Serial` defines the events of one byte (`ByteEvents`) and of a byte string
  (`Wire`). It also defines a decoder, `DecodeWire`, and proves
  `DecodeWire(Wire(bs)) == Some(bs)`. So "the method appends `Wire([op, arg])`"
  says exactly which bytes reach the display.
- `Commands` defines what the composite operations send, as functions of their
  inputs and the header constants, and proves their properties:
  - the cursor address of `setCursor`;
  - the slot byte of `createChar`;
  - the remapping of `write`;
  - the bootstrap of `begin`.
- `Glyph` defines the column bytes of `createChar`. It proves the layout, that
  the rotation can be undone, and that bits 5 to 7 of the rows have no effect.
- `Header` holds the constants of `FutabaVFD162S.h` as a `Config` value, since
  the header is not part of this model. It also holds the C conversion to
  `uint8_t`.

The range test of `setCursor` alone suggests that every off-screen coordinate
sends the cursor home. But the linear index `row * columns + column` is first
stored in a `uint8_t`, so an index of 256 or more is reduced modulo 256 before
the test, and it can alias an on-screen cell: on a 16x2 display, column 1 of
row 16 is cell 257, which becomes cell 1. `Commands.CursorWrapAliases` shows
this, and the model keeps the truncation.

Bytes are `bv8`, so the wrap-around of `uint8_t` arithmetic is exact:
- `characterIndex + 1` in `createChar`;
- `character + CUSTOM_CHARACTER_TRANSLATE_OFFSET` in `write`.

The cursor arithmetic of `setCursor` is done on integers, as C promotes its
`uint8_t` operands, and `Header.ToUint8` performs the conversions back to
`uint8_t`: the store of the index into `address`, and the argument
`address + 1`, which wraps to 0 for address 255.

## Model

| member | source | states |
|---|---|---|
| Serial.MaskAtEnds | src/FutabaVFD162S.cpp:237 | the shifting mask of writeCharacterDirect is non-zero for exactly the eight passes, zero after them |
| Serial.MaskAt | src/FutabaVFD162S.cpp:237 | the mask of pass k, 0b10000000 shifted right k times; MaskAtEnds states when it is zero |
| Serial.BitMsb | src/FutabaVFD162S.cpp:239 | the bit `character & mask` tests in pass k; BitMsbIsBit states it is bit 7 - k |
| Serial.GroupEvent | src/FutabaVFD162S.cpp:239-244 | event i of a loop pass; BitGroupSpelled lists the six in order |
| Serial.LevelOf | src/FutabaVFD162S.cpp:239 | the level `(character & mask) ? HIGH : LOW` written to the data line; BitGroupDecodes and ByteEventsLayout state that the level carries the bit |
| Serial.BitGroup | src/FutabaVFD162S.cpp:239-244 | one loop pass of writeCharacterDirect is six events |
| Serial.Groups | src/FutabaVFD162S.cpp:237-245 | the first n passes of the loop are 6n events |
| Serial.ByteEvents | src/FutabaVFD162S.cpp:235-248 | one byte is 49 events: eight bit periods and the processing delay |
| Serial.Wire | src/FutabaVFD162S.cpp:235-248 | a string of n bytes is 49n events |
| Serial.BitGroupSpelled | src/FutabaVFD162S.cpp:239-244 | a bit period is: data line set, setup delay, clock low, half period, clock high, rest of the period |
| Serial.BitMsbIsBit | src/FutabaVFD162S.cpp:237-239 | the bit sent in pass k is bit 7 - k of the byte |
| Serial.GroupsAt | src/FutabaVFD162S.cpp:237-245 | events 6k to 6k+5 of the loop's output are the bit period of pass k |
| Serial.ByteEventsLayout | src/FutabaVFD162S.cpp:237-245 | bit period k of a byte sets the data line to bit 7 - k, then pulses the clock low and high, with the three delays in place |
| Serial.TopBitsWhole | src/FutabaVFD162S.cpp:237-245 | the eight bits, read most significant first, rebuild the byte |
| Serial.BitGroupDecodes | src/FutabaVFD162S.cpp:239-244 | a bit period decodes to the bit it was written for |
| Serial.GroupsRoundTrip | src/FutabaVFD162S.cpp:237-245 | the first n bit periods decode to the top n bits of the byte |
| Serial.ByteRoundTrip | src/FutabaVFD162S.cpp:235-248 | the events of one byte decode to that byte |
| Serial.ByteEndsClockHigh | src/FutabaVFD162S.cpp:243-247 | every byte ends with the clock driven high, then the processing delay |
| Serial.WireAppend | src/FutabaVFD162S.cpp:235-248 | sending two byte strings one after the other is sending their concatenation |
| Serial.GroupsStep | src/FutabaVFD162S.cpp:237-245 | one more loop pass appends the next bit's period |
| Serial.BitPass | src/FutabaVFD162S.cpp:237-245 | one pass with the mask of pass k appends bit period k and moves the mask to pass k+1 |
| Serial.BytePass | src/FutabaVFD162S.cpp:245-247 | once the mask is zero, the processing delay completes the byte |
| Serial.WireOfOne | src/FutabaVFD162S.cpp:235-248 | one byte on the wire is the eight bit periods and the processing delay |
| Serial.SentInTurn | src/FutabaVFD162S.cpp:235-248 | a trace that grew by Wire(a) and then by Wire(b) grew by Wire(a + b) |
| Serial.SentPair | src/FutabaVFD162S.cpp:140-144 | two writeCharacterDirect calls append Wire([a, b]) |
| Serial.WireRoundTrip | src/FutabaVFD162S.cpp:235-248 | the decoder recovers exactly the bytes that were sent |
| Serial.WireInjective | src/FutabaVFD162S.cpp:235-248 | different byte strings leave different traces |
| Header.ByteFits | src/FutabaVFD162S.cpp:112 | a value below 256 keeps its value when stored in a uint8_t |
| Header.ToUint8Value | src/FutabaVFD162S.cpp:112 | storing an int into a uint8_t keeps its value modulo 256 |
| Header.MaskIsModulo | src/FutabaVFD162S.cpp:88 | for a power-of-two n, masking with n - 1 is reduction modulo n |
| Header.ToUint8 | src/FutabaVFD162S.cpp:112 | the conversion of an int to uint8_t, also applied to `address + 1` at :119; ToUint8Value states it is reduction modulo 256 |
| Commands.CursorAddress | src/FutabaVFD162S.cpp:112-116 | on a non-empty screen, the address setCursor selects is a cell of the screen |
| Commands.CursorByte | src/FutabaVFD162S.cpp:119 | the byte setCursor sends, the address plus one as a uint8_t; CursorByteOneBased, CursorByteWraps and HomeIsCellOne state its values |
| Commands.CursorOnScreen | src/FutabaVFD162S.cpp:112-116 | an on-screen cell whose index fits a byte is addressed by row * columns + column |
| Commands.CursorOffScreen | src/FutabaVFD162S.cpp:113-116 | an off-screen index below 256 sends the cursor to address 0 |
| Commands.CursorByteOneBased | src/FutabaVFD162S.cpp:112-119 | with at most 255 cells, the byte sent is the address plus one, between 1 and the cell count |
| Commands.CursorWrapAliases | src/FutabaVFD162S.cpp:112-116 | on 16x2, (column 1, row 16) is off screen but wraps to cell 1 and sends byte 2 |
| Commands.CursorByteWraps | src/FutabaVFD162S.cpp:112-119 | whenever setCursor selects address 255, more than 255 cells are configured and the byte sent is 0 |
| Commands.CursorWideScreenWraps | src/FutabaVFD162S.cpp:112-119 | on 255x2, (column 0, row 1) is address 255 and is sent as byte 0 |
| Commands.HomeIsCellOne | src/FutabaVFD162S.cpp:79-82 | setCursor(0, 0) selects address 0 and sends cell number 1, whatever the geometry |
| Commands.CursorTwentyByTwo | src/FutabaVFD162S.cpp:110-120 | on 20x2, setCursor(5, 1) sends cell number 26 |
| Commands.SlotIndex | src/FutabaVFD162S.cpp:88 | the masked glyph index; SlotIndexWraps states it is the index modulo the slot count |
| Commands.SlotByte | src/FutabaVFD162S.cpp:89 | the slot byte createChar sends; SlotByteOneBased states it is between 1 and the slot count |
| Commands.GlyphSent | src/FutabaVFD162S.cpp:86-107 | createChar's three steps together append the load command, the slot byte and the column bytes |
| Commands.SlotIndexWraps | src/FutabaVFD162S.cpp:88 | the masked index is the index modulo the slot count, and an index in range is kept |
| Commands.SlotByteOneBased | src/FutabaVFD162S.cpp:88-89 | the slot byte is the index modulo the slot count plus one, between 1 and the slot count |
| Commands.WriteBytes | src/FutabaVFD162S.cpp:122-138 | the bytes write sends; WriteCases and WriteDropsControlCodes state its three cases |
| Commands.WriteCases | src/FutabaVFD162S.cpp:122-138 | write remaps a custom slot by the translate offset, drops exactly the other codes below space, sends anything else unchanged, and returns 0 or 1 to match |
| Commands.WriteDropsControlCodes | src/FutabaVFD162S.cpp:129-137 | except for custom slots, write sends nothing below space and otherwise the character itself |
| Commands.HasResetPin | src/FutabaVFD162S.cpp:37 | the test `resetPin != DO_NOT_USE_PIN` of :37 and :51, negated at :68; PinSetupTouchesResetIffWired and BeginClearsIffNoResetPin state what depends on it |
| Commands.PinSetup | src/FutabaVFD162S.cpp:30-41 | the constructor's pin set-up; PinSetupTouchesResetIffWired states which pins it drives and how |
| Commands.PinSetupTouchesResetIffWired | src/FutabaVFD162S.cpp:30-41 | on distinct clock, data and reset pins, the constructor drives clock high and data low; it writes to the reset pin or changes its mode exactly when one is wired, and then drives it low and makes it an output |
| Commands.ResetPulse | src/FutabaVFD162S.cpp:51-56 | the reset pulse, empty without a reset line; BeginWithResetPin states its three steps |
| Commands.BeginBytes | src/FutabaVFD162S.cpp:62-71 | the bytes begin sends; BeginClearsIffNoResetPin states when the clear is among them |
| Commands.BeginEvents | src/FutabaVFD162S.cpp:50-71 | everything begin does on the pins; BeginTransmits, BeginWithResetPin and BeginWithoutResetPin state its order and bytes |
| Commands.PulseSent | src/FutabaVFD162S.cpp:51-56 | the three steps of begin's reset branch are the reset pulse |
| Commands.BeginDone | src/FutabaVFD162S.cpp:50-71 | begin's steps together append the reset pulse, the settle delay and BeginBytes |
| Commands.BeginTransmits | src/FutabaVFD162S.cpp:50-71 | after the reset pulse and the settle delay, begin's events decode to exactly BeginBytes |
| Commands.BeginWithResetPin | src/FutabaVFD162S.cpp:51-63 | with a reset pin: reset high, hold, reset low, settle, then exactly bytes [I/O mode, 0] |
| Commands.BeginWithoutResetPin | src/FutabaVFD162S.cpp:59-71 | without a reset pin: the settle delay first, then exactly bytes [I/O mode, 0, clear] |
| Commands.BeginClearsIffNoResetPin | src/FutabaVFD162S.cpp:62-71 | begin sends I/O mode 0 in both cases, and a clear as its third byte exactly when no reset pin is wired |
| Glyph.TestBit | src/FutabaVFD162S.cpp:92 | the test bit of outer pass j, 0b10000 shifted right j times; TestBitEnds and TestBitReadsPixel state its use |
| Glyph.ColumnAcc | src/FutabaVFD162S.cpp:94-104 | the column byte after n rows of the inner loop; ColumnAccBits states its bit layout |
| Glyph.Columns | src/FutabaVFD162S.cpp:92-107 | createChar sends five column bytes; column j is the inner loop's byte for test bit j |
| Glyph.RowsFromColumns | src/FutabaVFD162S.cpp:92-107 | reading the glyph back from its columns gives one byte per row |
| Glyph.LowFiveBits | src/FutabaVFD162S.cpp:100 | the part of each row byte that the test bits read |
| Glyph.TestBitEnds | src/FutabaVFD162S.cpp:92 | the outer loop's test bit is non-zero for exactly five passes |
| Glyph.ShiftInBit | src/FutabaVFD162S.cpp:98-103 | one inner step puts the pixel in bit 7 and moves the other bits down by one |
| Glyph.ColumnAccBits | src/FutabaVFD162S.cpp:94-104 | after n rows the sentinel is at bit 7 - n, row i at bit 8 - n + i, and the bits below are clear |
| Glyph.TestBitReadsPixel | src/FutabaVFD162S.cpp:92-100 | pass j's test bit reads pixel bit 4 - j of a row |
| Glyph.ColumnLayout | src/FutabaVFD162S.cpp:92-107 | bit 8 - h + i of column j is pixel 4 - j of row i; the sentinel is at bit 7 - h; lower bits are clear |
| Glyph.ColumnBitIsPixel | src/FutabaVFD162S.cpp:92-107 | for 8-row glyphs, bit i of column j is set iff row i has test bit j |
| Glyph.LowBitsRebuilt | src/FutabaVFD162S.cpp:92-107 | a byte rebuilt from its five low bits is its low five bits |
| Glyph.TransposeRoundTrip | src/FutabaVFD162S.cpp:92-107 | rotating the five columns back recovers every row's five pixel bits |
| Glyph.ColumnAccSeesTestBit | src/FutabaVFD162S.cpp:94-104 | a column byte depends only on the rows' test bits |
| Glyph.HighBitsIgnored | src/FutabaVFD162S.cpp:92-107 | bits 5 to 7 of the row bytes do not change what createChar sends |
| Glyph.MaskedBitAgrees | src/FutabaVFD162S.cpp:100 | bytes equal in their low five bits agree on every test bit |
| Glyph.ColumnStep | src/FutabaVFD162S.cpp:98-103 | one inner-loop step shifts the next row into the column byte |
| Glyph.ColumnPass | src/FutabaVFD162S.cpp:92-107 | one outer pass sends the next column, and the next test bit is that of the next pass |
| Glyph.ColumnsDone | src/FutabaVFD162S.cpp:92 | once the test bit is zero, all five columns have been sent |
| Driver.FutabaVfd.Valid | src/FutabaVFD162S.cpp:28 | the cell count is columns times rows, as set at :28 and :48; the constructor and Begin ensure it |
| Driver.FutabaVfd.constructor | src/FutabaVFD162S.cpp:18-42 | records the pins; sets a 1x1 geometry with 1 cell; the trace is the pin set-up (clock high and output, data low and output, a wired reset line low and output) |
| Driver.FutabaVfd.DigitalWrite | src/FutabaVFD162S.cpp:31 | digitalWrite appends one pin write |
| Driver.FutabaVfd.PinMode | src/FutabaVFD162S.cpp:32 | pinMode(OUTPUT) appends one pin-mode event |
| Driver.FutabaVfd.TimingDelay | src/FutabaVFD162S.cpp:240 | timingDelay appends one labelled delay |
| Driver.FutabaVfd.WriteCharacterDirect | src/FutabaVFD162S.cpp:235-248 | appends exactly the eight bit periods of the byte, most significant bit first, and the processing delay |
| Driver.FutabaVfd.Begin | src/FutabaVFD162S.cpp:44-72 | records columns, rows and their product as the cell count; appends exactly the reset pulse (if wired), settle delay, [I/O mode, 0] and clear (if not wired) |
| Driver.FutabaVfd.ResetAndConfigure | src/FutabaVFD162S.cpp:50-71 | the pin work of begin appends exactly BeginEvents |
| Driver.FutabaVfd.Clear | src/FutabaVFD162S.cpp:74-77 | appends exactly the clear command |
| Driver.FutabaVfd.Home | src/FutabaVFD162S.cpp:79-82 | appends the set-cursor command and the byte for (0, 0), which is always 1 |
| Driver.FutabaVfd.SetCursor | src/FutabaVFD162S.cpp:110-120 | appends exactly the set-cursor command and CursorByte: the uint8_t index plus one, or 1 when off screen |
| Driver.FutabaVfd.CreateChar | src/FutabaVFD162S.cpp:84-108 | appends exactly 7 bytes: the load command, the masked slot index plus one, and the five transposed column bytes |
| Driver.FutabaVfd.ColumnByte | src/FutabaVFD162S.cpp:94-104 | the inner loop computes the column byte for one test bit |
| Driver.FutabaVfd.Write | src/FutabaVFD162S.cpp:122-138 | appends exactly WriteBytes (remapped glyph, nothing, or the character) and returns how many bytes it sent |
| Driver.FutabaVfd.SetBrightness | src/FutabaVFD162S.cpp:140-144 | appends exactly [brightness command, level] |
| Driver.FutabaVfd.SetCursorModeAutoInc | src/FutabaVFD162S.cpp:148-152 | appends exactly [cursor-mode command, 0x01] |
| Driver.FutabaVfd.SetCursorModeAutoDec | src/FutabaVFD162S.cpp:154-158 | appends exactly [cursor-mode command, 0x02] |
| Driver.FutabaVfd.SetCursorModeNonInc | src/FutabaVFD162S.cpp:160-164 | appends exactly [cursor-mode command, 0x03] |
| Driver.FutabaVfd.SetFlashPositions | src/FutabaVFD162S.cpp:167-172 | appends exactly [flash-position command, start, stop] |
| Driver.FutabaVfd.SetFlashModeEnabled | src/FutabaVFD162S.cpp:174-178 | appends exactly [flash-mode command, 0x02] |
| Driver.FutabaVfd.SetFlashModeDisabled | src/FutabaVFD162S.cpp:180-184 | appends exactly [flash-mode command, 0x01] |
| Driver.FutabaVfd.SetFlashRate50 | src/FutabaVFD162S.cpp:186-190 | appends exactly [flash-rate command, 0x01] |
| Driver.FutabaVfd.SetFlashRate1 | src/FutabaVFD162S.cpp:192-196 | appends exactly [flash-rate command, 0x30] |
| Driver.FutabaVfd.SetFlashRateTenth | src/FutabaVFD162S.cpp:198-202 | appends exactly [flash-rate command, 0xFF] |
| Driver.FutabaVfd.SetFontWestern | src/FutabaVFD162S.cpp:205-209 | appends exactly [select-font command, 0x01] |
| Driver.FutabaVfd.SetFontKatakana | src/FutabaVFD162S.cpp:211-215 | appends exactly [select-font command, 0x02] |
| Driver.FutabaVfd.SetNonBufferedMode | src/FutabaVFD162S.cpp:218-222 | appends exactly [buffered-mode command, 0x01] |
| Driver.FutabaVfd.SetBufferedMode | src/FutabaVFD162S.cpp:224-228 | appends exactly [buffered-mode command, 0x02] |
| Driver.FutabaVfd.PrintMessageBuffer | src/FutabaVFD162S.cpp:230-233 | appends exactly the print-message-buffer command |

## Left out

- FutabaVFD162S.h is not part of this model. Its constants are fields of
  `Header.Config`: the opcodes, `DO_NOT_USE_PIN`, `NUM_CUSTOM_CHARACTERS`,
  `CUSTOM_CHARACTER_TRANSLATE_OFFSET` and `CHARACTER_PIXEL_HEIGHT`.
- `Config.doNotUsePin` is a byte: the model assumes `DO_NOT_USE_PIN` is a
  `uint8_t` value. With a sentinel outside 0 to 255, the C comparisons with the
  `uint8_t` reset pin at lines 37, 51 and 68 would always find a reset pin wired,
  and the model does not cover that header.
- `Config.Valid()` states what the driver assumes of the header: the slot count
  is a power of two, and a glyph is at most 8 rows high. Only the lemmas that
  need these assumptions require them.
- Driver.FutabaVfd.ColumnByte: counts rows with a `nat`, where the source uses
  a `uint8_t i` at line 96. With a `CHARACTER_PIXEL_HEIGHT` of 256 or more that
  counter would wrap and the C loop would never end. The height assumption of
  `Config.Valid()` is also what rules this out; the model's loop always ends
  and does not capture that case.
- Timing: delays are labelled `Wait` events in the trace. Their durations and
  the passing of time are not modelled.
- Arduino's `digitalWrite`, `pinMode` and `timingDelay` are recorded as trace
  events, not modelled as hardware. HIGH and LOW are the two values of `Level`.
- The `Print` base class calls `write` for strings and numbers. It is library
  code, not part of this model.
- Device-side state is not modelled: cursor position, flash ranges, the message
  buffer and the glyph memory. The driver never reads any of it back.
- The declared types of `_numDisplayRows` and `_numDisplayCharacters` are in the
  header. Both are kept as `int`.
- Driver.FutabaVfd.Begin: computes `numColumns * numRows` as an unbounded
  integer. It does not model overflow of a narrower declared type, or of the
  16-bit `int` on AVR boards, because those types are in the header.
- Driver.FutabaVfd.Begin: the geometry fields are assigned before
  `ResetAndConfigure` runs the pin steps. That order matches the source; the
  trace cannot observe it either way.
- Driver.FutabaVfd.ResetAndConfigure and Driver.FutabaVfd.ColumnByte are
  helper methods. They split `begin` and the inner loop of `createChar` out of
  the source's single functions to keep each proof small. The steps they
  perform are the source's.
- Driver.FutabaVfd.CreateChar: reads `pixels` as an array of at least
  `CHARACTER_PIXEL_HEIGHT` bytes. A shorter C array would be read out of bounds; the model requires
  enough rows instead.
