/**
 * The constants of FutabaVFD162S.h. The header is not part of this model, so
 * every constant is a parameter: the driver is proved correct for all values
 * that satisfy `Config.Valid()`.
 */
module Header {

  /** Whether the byte n is one of 1, 2, 4, ..., 128: exactly one bit is set. */
  predicate IsPowerOfTwo(n: bv8) {
    n != 0 && n & (n - 1) == 0
  }

  datatype Config = Config(
    // DO_NOT_USE_PIN: the reset-pin value meaning "no reset line is wired"
    doNotUsePin: bv8,
    // NUM_CUSTOM_CHARACTERS: number of user glyph slots
    numCustomCharacters: bv8,
    // CUSTOM_CHARACTER_TRANSLATE_OFFSET: device code of custom slot 0
    customCharacterTranslateOffset: bv8,
    // CHARACTER_PIXEL_HEIGHT: rows of a glyph (8 on this display)
    characterPixelHeight: nat,
    // Command opcodes
    clearEntireDisplay: bv8,
    setCursorPosition: bv8,
    loadUserCharacter: bv8,
    setInputOutputMode: bv8,
    setDisplayBrightness: bv8,
    setCursorMode: bv8,
    setFlashPosition: bv8,
    flashMode: bv8,
    setFlashRate: bv8,
    selectFont: bv8,
    setBufferedMode: bv8,
    printMessageBuffer: bv8)
  {
    /**
     * The assumptions the driver makes of its header: the slot count is a power
     * of two below 256 (so that `NUM_CUSTOM_CHARACTERS - 1` is a mask of low bits
     * and the count compares with a uint8_t as a byte), and a glyph has no more
     * rows than a column byte has bits.
     */
    predicate Valid() {
      IsPowerOfTwo(numCustomCharacters) && characterPixelHeight <= 8
    }
  }

  /** A uint8_t used as a number (a column, a row, an address). */
  type Uint8 = x: int | 0 <= x < 256

  /**
   * The byte reached by counting up from 0 in n steps: a proof device for
   * ByteFits, which models no line of the driver.
   */
  ghost function Counted(n: nat): bv8
    requires n < 256
  {
    if n == 0 then 0 else Counted(n - 1) + 1
  }

  /** Counting up n steps from 0 reaches the byte of value n. */
  lemma {:induction false} CountedValue(n: nat)
    requires n < 256
    ensures Counted(n) as int == n
  {
    if n > 0 {
      CountedValue(n - 1);
      var x := Counted(n - 1);
      assert (x + 1) as int == x as int + 1;
    }
  }

  /** A value in range keeps its value as a byte. */
  lemma ByteFits(y: int)
    requires 0 <= y < 256
    ensures (y as bv8) as int == y
  {
    CountedValue(y);
    var b := Counted(y);
    assert (b as int) as bv8 == b;
  }

  /** Conversion of an int to uint8_t, as C performs it. */
  function ToUint8(x: int): bv8 {
    (x % 256) as bv8
  }

  /** The uint8_t of x has the value x modulo 256. */
  lemma ToUint8Value(x: int)
    ensures ToUint8(x) as int == x % 256
  {
    ByteFits(x % 256);
  }

  /** For a power of two n, masking with n - 1 is reduction modulo n. */
  lemma MaskIsModulo(i: bv8, n: bv8)
    requires IsPowerOfTwo(n)
    ensures i & (n - 1) == i % n
  {
  }
}
