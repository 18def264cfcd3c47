/**
 * Key dispatch: the `when (primaryCode)` chain of onKey. Kotlin tries the
 * branches in order and takes the first whose code equals the key's, so a
 * chain is modelled as a list of arms searched for the first match.
 */
module Dispatch {
  import opened Wrappers
  import opened KeyCodes

  /** The three keyboard pages of every language. */
  datatype Page = Normal | Shift | Symbol

  /** What one key press does, as a tag with its data. */
  datatype KeyAction =
    | DeleteBackward                                  // selection-aware delete
    | ChangePage(page: Page)                          // page-control key
    | CommitCompound(first: CodeUnit, second: CodeUnit)
    | ShowInputMethodPicker                           // the system picker
    | SendEnter                                       // an Enter key event
    | CommitLiteral(unit: CodeUnit)                   // the `else` branch

  /** The branches of onKey's `when`, named after their conditions. */
  datatype Branch =
    | DeleteArm | AbcArm | ShiftArm | UnshiftArm | SymbolArm
    | MyaTiMyaNaArm | NaPoMyaNaArm | LanguageArm | DoneArm

  /** One `code -> { ... }` branch. */
  datatype Arm = Arm(code: int, branch: Branch)

  /**
   * MainKeyboard.onKey's chain: CustomMainKeyboard's chain with the
   * KEYCODE_123 arm (arm 4) written twice.
   */
  function MainArms(k: KeyCodeTable): (arms: seq<Arm>)
    ensures |arms| == 10 && arms[5] == arms[4]
    ensures arms[..5] + arms[6..] == CustomArms(k)
  {
    [ Arm(KEYCODE_DELETE, DeleteArm), Arm(k.abc, AbcArm), Arm(KEYCODE_SHIFT, ShiftArm),
      Arm(k.unshift, UnshiftArm), Arm(k.symbol, SymbolArm), Arm(k.symbol, SymbolArm),
      Arm(k.myaTiMyaNa, MyaTiMyaNaArm), Arm(k.naPoMyaNa, NaPoMyaNaArm),
      Arm(k.language, LanguageArm), Arm(KEYCODE_DONE, DoneArm) ]
  }

  /**
   * CustomMainKeyboard.onKey's chain: each branch appears once, DELETE is
   * tried first, and the codes tested are exactly the known codes.
   */
  function CustomArms(k: KeyCodeTable): (arms: seq<Arm>)
    ensures |arms| == 9 && arms[0] == Arm(KEYCODE_DELETE, DeleteArm)
    ensures forall i, j :: 0 <= i < j < |arms| ==> arms[i].branch != arms[j].branch
  {
    [ Arm(KEYCODE_DELETE, DeleteArm), Arm(k.abc, AbcArm), Arm(KEYCODE_SHIFT, ShiftArm),
      Arm(k.unshift, UnshiftArm), Arm(k.symbol, SymbolArm),
      Arm(k.myaTiMyaNa, MyaTiMyaNaArm), Arm(k.naPoMyaNa, NaPoMyaNaArm),
      Arm(k.language, LanguageArm), Arm(KEYCODE_DONE, DoneArm) ]
  }

  /** Every code some arm of the custom chain tests. */
  function KnownCodes(k: KeyCodeTable): set<int>
  {
    {KEYCODE_DELETE, k.abc, KEYCODE_SHIFT, k.unshift, k.symbol,
     k.myaTiMyaNa, k.naPoMyaNa, k.language, KEYCODE_DONE}
  }

  /** The codes CustomMainKeyboard's chain tests are exactly the known codes. */
  lemma CustomArmsTestKnownCodes(k: KeyCodeTable)
    ensures (set a | a in CustomArms(k) :: a.code) == KnownCodes(k)
  {
    var arms := CustomArms(k);
    assert arms[0] in arms && arms[1] in arms && arms[2] in arms;
    assert arms[3] in arms && arms[4] in arms && arms[5] in arms;
    assert arms[6] in arms && arms[7] in arms && arms[8] in arms;
  }

  /** The position of the first arm testing `code`, or |arms| when none does. */
  function FirstMatch(arms: seq<Arm>, code: int): (i: nat)
    ensures i <= |arms|
    ensures i < |arms| ==> arms[i].code == code
    ensures forall j :: 0 <= j < i ==> arms[j].code != code
    decreases |arms|
  {
    if arms == [] then 0
    else if arms[0].code == code then 0
    else 1 + FirstMatch(arms[1..], code)
  }

  /** The branch `when` takes, or None for the `else` branch. */
  function Select(arms: seq<Arm>, code: int): (b: Option<Branch>)
    ensures b.None? <==> forall j :: 0 <= j < |arms| ==> arms[j].code != code
    ensures b.Some? ==> exists i :: 0 <= i < |arms| && arms[i] == Arm(code, b.value)
  {
    var i := FirstMatch(arms, code);
    if i < |arms| then Some(arms[i].branch) else None
  }

  /**
   * The action of a branch: only the `else` branch commits a literal (the
   * code's low 16 bits), only the four page branches change the page, and
   * both compounds end with MYA_NA.
   */
  function ActionOf(k: KeyCodeTable, b: Option<Branch>, code: int): (a: KeyAction)
    ensures a.CommitLiteral? <==> b.None?
    ensures a.CommitLiteral? ==> a.unit == ToChar(code)
    ensures a.ChangePage? <==> b.Some? && b.value in {AbcArm, ShiftArm, UnshiftArm, SymbolArm}
    ensures a.CommitCompound? <==> b.Some? && b.value in {MyaTiMyaNaArm, NaPoMyaNaArm}
    ensures a.CommitCompound? ==> a.second == ToChar(k.myaNa)
  {
    match b
    case None => CommitLiteral(ToChar(code))
    case Some(DeleteArm) => DeleteBackward
    case Some(AbcArm) => ChangePage(Normal)
    case Some(ShiftArm) => ChangePage(Shift)
    case Some(UnshiftArm) => ChangePage(Normal)
    case Some(SymbolArm) => ChangePage(Symbol)
    case Some(MyaTiMyaNaArm) => CommitCompound(ToChar(k.myaTi), ToChar(k.myaNa))
    case Some(NaPoMyaNaArm) => CommitCompound(ToChar(k.naPo), ToChar(k.myaNa))
    case Some(LanguageArm) => ShowInputMethodPicker
    case Some(DoneArm) => SendEnter
  }

  /**
   * The action a chain of arms gives a key code: the literal `toChar(code)`
   * exactly when no arm tests the code, otherwise the action of the first
   * arm that does.
   */
  function Classify(arms: seq<Arm>, k: KeyCodeTable, code: int): (a: KeyAction)
    ensures a.CommitLiteral? <==> forall j :: 0 <= j < |arms| ==> arms[j].code != code
    ensures a.CommitLiteral? ==> a == CommitLiteral(ToChar(code))
    ensures !a.CommitLiteral? ==>
              FirstMatch(arms, code) < |arms| && a == ActionOf(k, Some(arms[FirstMatch(arms, code)].branch), code)
  {
    ActionOf(k, Select(arms, code), code)
  }

  /** FirstMatch is THE first match: any index with its two properties is it. */
  lemma FirstMatchUnique(arms: seq<Arm>, code: int, i: nat)
    requires i <= |arms|
    requires i < |arms| ==> arms[i].code == code
    requires forall j :: 0 <= j < i ==> arms[j].code != code
    ensures FirstMatch(arms, code) == i
  {
  }

  /**
   * An arm whose code an earlier arm already tests is dead: dropping it
   * leaves the branch taken for every code unchanged.
   */
  lemma ShadowedArmIsDead(arms: seq<Arm>, earlier: nat, i: nat, code: int)
    requires earlier < i < |arms|
    requires arms[earlier].code == arms[i].code
    ensures FirstMatch(arms, code) != i
    ensures Select(arms[..i] + arms[i + 1..], code) == Select(arms, code)
  {
    var rest := arms[..i] + arms[i + 1..];
    var f := FirstMatch(arms, code);
    if f < i {
      FirstMatchUnique(rest, code, f);
    } else {
      assert f > i;
      assert forall j :: 0 <= j < f - 1 ==> rest[j].code != code by {
        forall j | 0 <= j < f - 1 ensures rest[j].code != code {
          if j >= i { assert rest[j] == arms[j + 1]; }
        }
      }
      if f < |arms| {
        assert rest[f - 1] == arms[f];
      }
      FirstMatchUnique(rest, code, f - 1);
    }
  }

  /** The repeated KEYCODE_123 arm of MainKeyboard is never taken. */
  lemma DuplicateSymbolArmUnreachable(k: KeyCodeTable, code: int)
    ensures FirstMatch(MainArms(k), code) != 5
  {
    var arms := MainArms(k);
    assert arms[4].code == arms[5].code;
  }

  /** Both versions of onKey choose the same action for every code. */
  lemma VersionsClassifyAlike(k: KeyCodeTable, code: int)
    ensures Classify(MainArms(k), k, code) == Classify(CustomArms(k), k, code)
  {
    var arms := MainArms(k);
    ShadowedArmIsDead(arms, 4, 5, code);
    assert arms[..5] + arms[6..] == CustomArms(k);
  }

  /** Only KEYCODE_DELETE deletes, and it always does: its arm comes first. */
  lemma DeleteKeyClassification(k: KeyCodeTable, code: int)
    ensures Classify(CustomArms(k), k, code) == DeleteBackward <==> code == KEYCODE_DELETE
  {
    var arms := CustomArms(k);
    if code == KEYCODE_DELETE {
      FirstMatchUnique(arms, code, 0);
    }
  }

  /**
   * Page-control keys: ABC and UNSHIFT give NORMAL, SHIFT gives SHIFT and
   * 123 gives SYMBOL, each unless an earlier arm claims the code; no other
   * code changes the page.
   */
  lemma PageKeysClassification(k: KeyCodeTable, code: int)
    ensures code == k.abc && code != KEYCODE_DELETE ==>
              Classify(CustomArms(k), k, code) == ChangePage(Normal)
    ensures code == KEYCODE_SHIFT && code != k.abc ==>
              Classify(CustomArms(k), k, code) == ChangePage(Shift)
    ensures code == k.unshift && code !in {KEYCODE_DELETE, k.abc, KEYCODE_SHIFT} ==>
              Classify(CustomArms(k), k, code) == ChangePage(Normal)
    ensures code == k.symbol && code !in {KEYCODE_DELETE, k.abc, KEYCODE_SHIFT, k.unshift} ==>
              Classify(CustomArms(k), k, code) == ChangePage(Symbol)
    ensures Classify(CustomArms(k), k, code).ChangePage? ==>
              code in {k.abc, KEYCODE_SHIFT, k.unshift, k.symbol}
  {
    var arms := CustomArms(k);
    if code == k.abc && code != KEYCODE_DELETE {
      FirstMatchUnique(arms, code, 1);
    } else if code == KEYCODE_SHIFT && code != k.abc {
      FirstMatchUnique(arms, code, 2);
    } else if code == k.unshift && code !in {KEYCODE_DELETE, k.abc, KEYCODE_SHIFT} {
      FirstMatchUnique(arms, code, 3);
    } else if code == k.symbol && code !in {KEYCODE_DELETE, k.abc, KEYCODE_SHIFT, k.unshift} {
      FirstMatchUnique(arms, code, 4);
    }
  }

  /**
   * Compound keys commit their two components, the first before MYA_NA;
   * no other code commits a pair.
   */
  lemma CompoundKeysClassification(k: KeyCodeTable, code: int)
    ensures code == k.myaTiMyaNa
            && code !in {KEYCODE_DELETE, k.abc, KEYCODE_SHIFT, k.unshift, k.symbol} ==>
              Classify(CustomArms(k), k, code) == CommitCompound(ToChar(k.myaTi), ToChar(k.myaNa))
    ensures code == k.naPoMyaNa
            && code !in {KEYCODE_DELETE, k.abc, KEYCODE_SHIFT, k.unshift, k.symbol, k.myaTiMyaNa} ==>
              Classify(CustomArms(k), k, code) == CommitCompound(ToChar(k.naPo), ToChar(k.myaNa))
    ensures Classify(CustomArms(k), k, code).CommitCompound? ==>
              code in {k.myaTiMyaNa, k.naPoMyaNa}
              && Classify(CustomArms(k), k, code).second == ToChar(k.myaNa)
  {
    var arms := CustomArms(k);
    if code == k.myaTiMyaNa && code !in {KEYCODE_DELETE, k.abc, KEYCODE_SHIFT, k.unshift, k.symbol} {
      FirstMatchUnique(arms, code, 5);
    } else if code == k.naPoMyaNa
              && code !in {KEYCODE_DELETE, k.abc, KEYCODE_SHIFT, k.unshift, k.symbol, k.myaTiMyaNa} {
      FirstMatchUnique(arms, code, 6);
    }
  }

  /**
   * The language key asks for the system picker and DONE sends Enter, each
   * unless an earlier arm claims the code; nothing else does either.
   */
  lemma PickerAndDoneClassification(k: KeyCodeTable, code: int)
    ensures code == k.language
            && code !in {KEYCODE_DELETE, k.abc, KEYCODE_SHIFT, k.unshift, k.symbol,
                         k.myaTiMyaNa, k.naPoMyaNa} ==>
              Classify(CustomArms(k), k, code) == ShowInputMethodPicker
    ensures code == KEYCODE_DONE
            && code !in {KEYCODE_DELETE, k.abc, KEYCODE_SHIFT, k.unshift, k.symbol,
                         k.myaTiMyaNa, k.naPoMyaNa, k.language} ==>
              Classify(CustomArms(k), k, code) == SendEnter
    ensures Classify(CustomArms(k), k, code) == ShowInputMethodPicker ==> code == k.language
    ensures Classify(CustomArms(k), k, code) == SendEnter ==> code == KEYCODE_DONE
  {
    var arms := CustomArms(k);
    if code == k.language
       && code !in {KEYCODE_DELETE, k.abc, KEYCODE_SHIFT, k.unshift, k.symbol, k.myaTiMyaNa, k.naPoMyaNa}
    {
      FirstMatchUnique(arms, code, 7);
    } else if code == KEYCODE_DONE
              && code !in {KEYCODE_DELETE, k.abc, KEYCODE_SHIFT, k.unshift, k.symbol,
                           k.myaTiMyaNa, k.naPoMyaNa, k.language}
    {
      FirstMatchUnique(arms, code, 8);
    }
  }

  /**
   * The `else` branch: exactly the codes no arm tests are committed, as the
   * one code unit holding their low 16 bits.
   */
  lemma FallbackClassification(k: KeyCodeTable, code: int)
    ensures Classify(CustomArms(k), k, code).CommitLiteral? <==> code !in KnownCodes(k)
    ensures code !in KnownCodes(k) ==> Classify(CustomArms(k), k, code) == CommitLiteral(ToChar(code))
    ensures code !in KnownCodes(k) && 0 <= code < 0x1_0000 ==>
              Classify(CustomArms(k), k, code) == CommitLiteral(code)
  {
    var arms := CustomArms(k);
    if code !in KnownCodes(k) {
      FirstMatchUnique(arms, code, |arms|);
    } else {
      assert arms[0].code == KEYCODE_DELETE && arms[1].code == k.abc && arms[2].code == KEYCODE_SHIFT;
      assert arms[3].code == k.unshift && arms[4].code == k.symbol && arms[5].code == k.myaTiMyaNa;
      assert arms[6].code == k.naPoMyaNa && arms[7].code == k.language && arms[8].code == KEYCODE_DONE;
    }
  }
}
