/**
 * `System.Drawing.Color` as four bytes, and the selection convention of a branch:
 * a selected branch is drawn with alpha 255, an unselected one with alpha 70.
 */
module Colors {

  newtype Byte = x: int | 0 <= x < 256

  datatype Color = Color(a: Byte, r: Byte, g: Byte, b: Byte)

  const SelectedAlpha: Byte := 255
  const UnselectedAlpha: Byte := 70

  predicate SameRgb(c: Color, d: Color) {
    c.r == d.r && c.g == d.g && c.b == d.b
  }

  /** `Color.FromArgb(alpha, c.R, c.G, c.B)`. */
  function WithAlpha(c: Color, alpha: Byte): (d: Color)
    ensures SameRgb(d, c) && d.a == alpha
  {
    Color(alpha, c.r, c.g, c.b)
  }

  /** The alpha `Select` (true) or `UnSelect` (false) writes. */
  function AlphaFor(select: bool): Byte {
    if select then SelectedAlpha else UnselectedAlpha
  }

  /** Alpha and the `selected` flag tell the same story. */
  predicate AlphaAgrees(selected: bool, c: Color) {
    c.a == AlphaFor(selected)
  }

  /**
   * The colour after a run of `Select` (true) and `UnSelect` (false) calls, in order.
   */
  function ApplySelections(c: Color, ops: seq<bool>): Color
    decreases |ops|
  {
    if ops == [] then c else ApplySelections(WithAlpha(c, AlphaFor(ops[0])), ops[1..])
  }

  /** Calling `Select` or `UnSelect` twice in a row is the same as calling it once. */
  lemma SelectionIdempotent(c: Color, select: bool)
    ensures WithAlpha(WithAlpha(c, AlphaFor(select)), AlphaFor(select)) == WithAlpha(c, AlphaFor(select))
  {
  }

  /** `Select` then `UnSelect` gives back the original RGB with alpha 70. */
  lemma SelectThenUnselect(c: Color)
    ensures WithAlpha(WithAlpha(c, SelectedAlpha), UnselectedAlpha) == c.(a := UnselectedAlpha)
  {
  }

  /** No run of selections alters R, G or B. */
  lemma {:induction false} SelectionsPreserveRgb(c: Color, ops: seq<bool>)
    ensures SameRgb(ApplySelections(c, ops), c)
    decreases |ops|
  {
    if ops != [] {
      SelectionsPreserveRgb(WithAlpha(c, AlphaFor(ops[0])), ops[1..]);
    }
  }

  /** After a non-empty run of selections the alpha is the one the last call wrote. */
  lemma {:induction false} SelectionsLastWins(c: Color, ops: seq<bool>)
    requires ops != []
    ensures AlphaAgrees(ops[|ops| - 1], ApplySelections(c, ops))
    decreases |ops|
  {
    if |ops| > 1 {
      SelectionsLastWins(WithAlpha(c, AlphaFor(ops[0])), ops[1..]);
    }
  }
}
