/**
 * Key codes. Android fixes a few of them; the rest are read once from
 * integer resources (loadKeyCodes) and are read-only afterwards, so here
 * they form an immutable record handed to the service when it is built.
 */
module KeyCodes {

  /** A UTF-16 code unit: what a Kotlin `Char` holds. */
  type CodeUnit = x: int | 0 <= x < 0x1_0000

  /** The codes android.inputmethodservice.Keyboard defines. */
  const KEYCODE_SHIFT: int := -1
  const KEYCODE_DONE: int := -4
  const KEYCODE_DELETE: int := -5

  /** The codes loadKeyCodes reads from the integer resources. */
  datatype KeyCodeTable = KeyCodeTable(
    unshift: int,
    abc: int,
    symbol: int,          // KEYCODE_123
    space: int,
    language: int,        // switch to the next input method
    naPoMyaNa: int,       // compound key: NA_PO then MYA_NA
    myaTiMyaNa: int,      // compound key: MYA_TI then MYA_NA
    myaTi: int,
    myaNa: int,
    naPo: int)

  /**
   * Kotlin's `Int.toChar()`: the code unit whose value is the low 16 bits
   * of the code, i.e. the one code unit congruent to it modulo 2^16.
   */
  function ToChar(code: int): (c: CodeUnit)
    ensures (code - c) % 0x1_0000 == 0
    ensures 0 <= code < 0x1_0000 ==> c == code
  {
    code % 0x1_0000
  }

  /** Two code units congruent modulo 2^16 are the same unit: ToChar's result is the only candidate. */
  lemma ToCharUnique(code: int, c: CodeUnit)
    requires (code - c) % 0x1_0000 == 0
    ensures ToChar(code) == c
  {
    var d := ToChar(code);
    var q1, q2 := (code - c) / 0x1_0000, (code - d) / 0x1_0000;
    assert code - c == q1 * 0x1_0000;
    assert code - d == q2 * 0x1_0000;
    assert d - c == (q1 - q2) * 0x1_0000;
  }
}
