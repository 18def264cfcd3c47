/**
 * The cyclic language index of changeLanguage:
 * (idx + direction + n) % n over n languages, with Kotlin's `%`.
 */
module LanguageIndex {

  /** Kotlin's `%` on Int: truncated division, so the remainder takes the dividend's sign. */
  function KotlinRem(a: int, n: int): (r: int)
    requires n > 0
    ensures a >= 0 ==> 0 <= r < n
    ensures a < 0 ==> -n < r <= 0
  {
    if a >= 0 then a % n else -((-a) % n)
  }

  /**
   * KotlinRem is a remainder: it differs from the dividend by a multiple of
   * n. With its sign ranges this pins it down as the truncated remainder.
   */
  lemma KotlinRemCongruent(a: int, n: int)
    requires n > 0
    ensures (a - KotlinRem(a, n)) % n == 0
  {
    if a >= 0 {
      assert a - KotlinRem(a, n) == (a / n) * n;
      MultipleHasNoRemainder(a / n, n);
    } else {
      assert a - KotlinRem(a, n) == (-((-a) / n)) * n;
      MultipleHasNoRemainder(-((-a) / n), n);
    }
  }

  /** A multiple of n leaves remainder 0. */
  lemma MultipleHasNoRemainder(k: int, n: int)
    requires n > 0
    ensures (k * n) % n == 0
  {
    var q, r := (k * n) / n, (k * n) % n;
    assert (k - q) * n == r;
    if k - q >= 1 {
      ProductAtLeast(k - q, n);
    } else if k - q <= -1 {
      ProductAtLeast(q - k, n);
    }
  }

  /** A positive multiple of n is at least n. */
  lemma ProductAtLeast(m: int, n: int)
    requires m >= 1 && n > 0
    ensures m * n >= n
  {
    assert m * n == (m - 1) * n + n;
    assert (m - 1) * n >= 0;
  }

  /** The index `direction` steps from `idx` over n languages, as changeLanguage computes it. */
  function NextLanguageIndex(idx: int, direction: int, n: int): (r: int)
    requires n > 0
    ensures idx + direction + n >= 0 ==> 0 <= r < n
  {
    KotlinRem(idx + direction + n, n)
  }

  /** k switches in one direction. */
  function Switches(idx: int, direction: int, n: int, k: nat): int
    requires n > 0
    decreases k
  {
    if k == 0 then idx else Switches(NextLanguageIndex(idx, direction, n), direction, n, k - 1)
  }

  /** A valid index and a direction of +1 or -1 give a valid index. */
  lemma SwitchStaysInRange(idx: int, direction: int, n: int)
    requires n > 0 && 0 <= idx < n
    requires direction == 1 || direction == -1
    ensures 0 <= NextLanguageIndex(idx, direction, n) < n
  {
  }

  /** One step forward moves to the next index and wraps from n - 1 to 0; backward is the mirror image. */
  lemma OneStep(idx: int, n: int)
    requires n > 0 && 0 <= idx < n
    ensures NextLanguageIndex(idx, 1, n) == if idx == n - 1 then 0 else idx + 1
    ensures NextLanguageIndex(idx, -1, n) == if idx == 0 then n - 1 else idx - 1
  {
    if idx == n - 1 {
      ModBand(idx + 1 + n, n, 2);
    } else {
      ModBand(idx + 1 + n, n, 1);
    }
    if idx == 0 {
      ModBand(idx - 1 + n, n, 0);
    } else {
      ModBand(idx - 1 + n, n, 1);
    }
  }

  /** Dafny's `%` on a dividend in the q-th band of width n. */
  lemma ModBand(x: int, n: int, q: int)
    requires n > 0 && 0 <= q <= 2
    requires q * n <= x < q * n + n
    ensures x % n == x - q * n
  {
  }

  /**
   * The formula needs idx + direction + n >= 0. When that sum is negative,
   * Kotlin's remainder keeps its sign: the index is out of range (negative)
   * exactly when idx + direction is not a multiple of n, and is 0 otherwise.
   */
  lemma FarBackwardLeavesRange(idx: int, direction: int, n: int)
    requires n > 0 && idx + direction + n < 0
    ensures NextLanguageIndex(idx, direction, n) < 0 <==> (idx + direction) % n != 0
    ensures NextLanguageIndex(idx, direction, n) == 0 <==> (idx + direction) % n == 0
  {
    var x := -(idx + direction + n);
    assert NextLanguageIndex(idx, direction, n) == -(x % n);
    DivisibleShift(x, n);
    DivisibleNegation(x + n, n);
    DivisibleNegation(-(x + n), n);
    assert idx + direction == -(x + n);
  }

  /** Adding n keeps divisibility by n, both ways. */
  lemma DivisibleShift(y: int, n: int)
    requires n > 0
    ensures y % n == 0 <==> (y + n) % n == 0
  {
    if y % n == 0 {
      var q := y / n;
      assert y == q * n;
      assert y + n == (q + 1) * n;
      MultipleHasNoRemainder(q + 1, n);
    }
    if (y + n) % n == 0 {
      var q := (y + n) / n;
      assert y + n == q * n;
      assert y == (q - 1) * n;
      MultipleHasNoRemainder(q - 1, n);
    }
  }

  /** Negation keeps divisibility by n. */
  lemma DivisibleNegation(y: int, n: int)
    requires n > 0
    ensures y % n == 0 ==> (-y) % n == 0
  {
    if y % n == 0 {
      var q := y / n;
      assert y == q * n;
      assert -y == (-q) * n;
      MultipleHasNoRemainder(-q, n);
    }
  }

  /** With one language a switch is a no-op. */
  lemma SingleLanguageSwitchIsNoOp(direction: int)
    requires direction == 1 || direction == -1
    ensures NextLanguageIndex(0, direction, 1) == 0
  {
    OneStep(0, 1);
  }

  /** A step back undoes a step forward. */
  lemma BackUndoesForward(idx: int, n: int)
    requires n > 0 && 0 <= idx < n
    ensures NextLanguageIndex(NextLanguageIndex(idx, 1, n), -1, n) == idx
  {
    OneStep(idx, n);
    OneStep(NextLanguageIndex(idx, 1, n), n);
  }

  /** Runs of switches from a valid index stay valid. */
  lemma {:induction false} SwitchesInRange(idx: int, direction: int, n: int, k: nat)
    requires n > 0 && 0 <= idx < n
    requires direction == 1 || direction == -1
    ensures 0 <= Switches(idx, direction, n, k) < n
    decreases k
  {
    if k > 0 {
      SwitchesInRange(NextLanguageIndex(idx, direction, n), direction, n, k - 1);
    }
  }

  /** The last of k + 1 switches is one switch after the first k. */
  lemma {:induction false} SwitchesLast(idx: int, direction: int, n: int, k: nat)
    requires n > 0
    ensures Switches(idx, direction, n, k + 1) ==
              NextLanguageIndex(Switches(idx, direction, n, k), direction, n)
    decreases k
  {
    if k > 0 {
      SwitchesLast(NextLanguageIndex(idx, direction, n), direction, n, k - 1);
    }
  }

  /** k switches forward followed by k switches back return to the starting index. */
  lemma {:induction false} ForwardThenBackReturns(idx: int, n: int, k: nat)
    requires n > 0 && 0 <= idx < n
    ensures Switches(Switches(idx, 1, n, k), -1, n, k) == idx
    decreases k
  {
    if k > 0 {
      var mid := Switches(idx, 1, n, k - 1);
      SwitchesLast(idx, 1, n, k - 1);
      SwitchesInRange(idx, 1, n, k - 1);
      BackUndoesForward(mid, n);
      assert Switches(Switches(idx, 1, n, k), -1, n, k)
          == Switches(NextLanguageIndex(NextLanguageIndex(mid, 1, n), -1, n), -1, n, k - 1);
      ForwardThenBackReturns(idx, n, k - 1);
    }
  }
}
