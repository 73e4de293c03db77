/** The ball and background colours and the swap an admitted collision performs. */
module Palette {

  /** A p5 grayscale colour `color(level)`. */
  datatype Color = Gray(level: int)

  const Black: Color := Gray(0)
  const White: Color := Gray(255)

  datatype Colors = Colors(ball: Color, bg: Color)

  /** The colours the sketch starts with: a black ball on a white background. */
  const Initial: Colors := Colors(Black, White)

  /** Exchange the ball and background colours. */
  function Swap(c: Colors): (r: Colors)
    ensures r.ball == c.bg && r.bg == c.ball
    ensures c.ball != c.bg ==> r.ball != r.bg
  {
    Colors(c.bg, c.ball)
  }

  /** The colours after `n` admitted collisions. */
  function AfterAdmissions(c: Colors, n: nat): (r: Colors)
  {
    if n == 0 then c else Swap(AfterAdmissions(c, n - 1))
  }

  /**
   * Colours only alternate: an even number of admissions restores the pair,
   * an odd number swaps it, and distinct colours stay distinct.
   */
  lemma {:induction false} AdmissionsAlternate(c: Colors, n: nat)
    ensures AfterAdmissions(c, n) == if n % 2 == 0 then c else Swap(c)
    ensures c.ball != c.bg ==> AfterAdmissions(c, n).ball != AfterAdmissions(c, n).bg
  {
    if n > 0 {
      AdmissionsAlternate(c, n - 1);
    }
  }

  /** Starting from black on white, the colours are always distinct. */
  lemma InitialStaysDistinct(n: nat)
    ensures AfterAdmissions(Initial, n).ball != AfterAdmissions(Initial, n).bg
  {
  }
}
