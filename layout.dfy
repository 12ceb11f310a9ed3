/**
  The layout planner: where the separated render (and the last frame of the
  animation) puts the shapes, left to right in front-to-back order.
 */
module Layout {

  /** Blank space kept at the left and right edges of the canvas. */
  const Margin := 40

  /**
    `(width - 2 * margin) // (n + 1)`. The divisor is at least 1 for every
    shape count, and Python's floor division matches Dafny's `/` for a
    positive divisor, also when the available width is negative.
   */
  function Spacing(width: int, n: nat): (s: int)
    ensures s * (n + 1) <= width - 2 * Margin < (s + 1) * (n + 1)
  {
    (width - 2 * Margin) / (n + 1)
  }

  /** The x coordinate of the `i`-th slot (0-based) when there are `n` shapes. */
  function SlotX(width: int, n: nat, i: int): int
  {
    Margin + Spacing(width, n) * (i + 1)
  }

  /** Every slot is at mid height. */
  function SlotY(height: int): int
  {
    height / 2
  }

  /** Consecutive slots are exactly one spacing apart; the first is one spacing right of the margin. */
  lemma SlotsEvenlySpaced(width: int, n: nat, i: int)
    ensures SlotX(width, n, i + 1) - SlotX(width, n, i) == Spacing(width, n)
    ensures SlotX(width, n, 0) == Margin + Spacing(width, n)
  {
    assert Spacing(width, n) * (i + 2) == Spacing(width, n) * (i + 1) + Spacing(width, n);
  }

  /** With a positive spacing the slots strictly increase from left to right. */
  lemma {:induction false} SlotsIncreasing(width: int, n: nat, i: int, j: int)
    requires Spacing(width, n) > 0
    requires i < j
    ensures SlotX(width, n, i) < SlotX(width, n, j)
    decreases j - i
  {
    SlotsEvenlySpaced(width, n, i);
    if i + 1 < j {
      SlotsIncreasing(width, n, i + 1, j);
    }
  }

  /**
    When the canvas is at least two margins wide every slot keeps at least
    one spacing of room to the margin on both sides.
   */
  lemma SlotsInsideMargins(width: int, n: nat, i: nat)
    requires width >= 2 * Margin
    requires i < n
    ensures Margin + Spacing(width, n) <= SlotX(width, n, i)
    ensures SlotX(width, n, i) + Spacing(width, n) <= width - Margin
  {
    var s := Spacing(width, n);
    assert s >= 0;
    assert s * (i + 1) >= s;
    assert s * (i + 2) <= s * (n + 1) by {
      assert s * (n + 1) - s * (i + 2) == s * (n - 1 - i);
    }
    assert s * (i + 2) == s * (i + 1) + s;
  }

  /** A single shape goes to the horizontal centre of the canvas, `width // 2`. */
  lemma SingleShapeCentred(width: int)
    ensures SlotX(width, 1, 0) == width / 2
  {
  }

  /** Three shapes on a 512 pixel wide canvas: spacing 108, slots at 148, 256 and 364. */
  lemma ThreeShapesOn512()
    ensures Spacing(512, 3) == 108
    ensures SlotX(512, 3, 0) == 148 && SlotX(512, 3, 1) == 256 && SlotX(512, 3, 2) == 364
  {
  }
}
