/** The rotation the print dialog asks the engine to render each page with:
    undo the rotation the document itself applies to the page, then turn the
    page a quarter further when that makes it fill more of a portrait sheet.
    Rotations count quarter turns clockwise. */
module PrintRotation {

  /** JavaScript's `%` for a positive divisor: the remainder has the sign of
      the dividend (Dafny's `%` never returns a negative remainder). */
  function JsRem(a: int, b: int): (r: int)
    requires b > 0
    ensures a >= 0 ==> r == a % b
    ensures a < 0 ==> -b < r <= 0
  {
    if a >= 0 then a % b else -((-a) % b)
  }

  /** Truncation is symmetric: negating the dividend negates the remainder,
      so a negative dividend's remainder is minus that of its magnitude. */
  lemma {:induction false} JsRemNegate(a: int, b: int)
    requires b > 0
    ensures JsRem(-a, b) == -JsRem(a, b)
  {
  }

  /** For the divisors the dialog uses, the remainder differs from the
      dividend by a multiple of the divisor, so it is the value JavaScript
      gives and not merely one in range. */
  lemma {:induction false} JsRemCongruent(a: int)
    ensures (a - JsRem(a, 4)) % 4 == 0
    ensures (a - JsRem(a, 2)) % 2 == 0
  {
    var q4 := JsRemGap(a, 4);
    var q2 := JsRemGap(a, 2);
    MultipleOf(q4, 4);
    MultipleOf(q2, 2);
  }

  /** The dividend minus its remainder, as a multiple of the divisor. */
  lemma {:induction false} JsRemGap(a: int, b: int) returns (q: int)
    requires b == 2 || b == 4
    ensures a - JsRem(a, b) == b * q
  {
    var n := if a >= 0 then a else -a;
    assert n == b * (n / b) + n % b;
    q := if a >= 0 then n / b else -(n / b);
  }

  /** A multiple of the divisor leaves no remainder. */
  lemma {:induction false} MultipleOf(q: int, b: int)
    requires b == 2 || b == 4
    ensures (b * q) % b == 0
  {
  }

  /** `getDocumentRotation`: the quarter turns the document adds on top of the
      viewer's rotation, from the engine's complete and viewer rotations. For
      engine rotations in 0..3 the result is in 0..3, and turning the viewer's
      rotation by the result gives the complete rotation. */
  function DocumentRotation(completeRotation: int, viewerRotation: int): (r: int)
    ensures completeRotation - viewerRotation + 4 >= 0 ==>
      0 <= r < 4 && (viewerRotation + r) % 4 == completeRotation % 4
    ensures 0 <= completeRotation < 4 && 0 <= viewerRotation < 4 ==> 0 <= r < 4
  {
    JsRem(completeRotation - viewerRotation + 4, 4)
  }

  /** `getPrintRotation`, given the page's document rotation and size. For a
      document rotation in 0..3 the result is in 0..3; a landscape page
      (wider than high) gets an odd rotation and a portrait page an even one,
      a square page keeps the rotation that undoes the document's, and no page
      is turned more than one quarter away from that. The extra quarter turn
      stays within the pair {0, 1} or {2, 3} holding the undoing rotation:
      an even one is turned up by one, an odd one down by one. */
  function PrintRotation(documentRotation: int, width: real, height: real): (r: int)
    ensures 0 <= documentRotation < 4 ==> 0 <= r < 4
    ensures 0 <= documentRotation < 4 && width > height ==> r % 2 == 1
    ensures 0 <= documentRotation < 4 && height > width ==> r % 2 == 0
    ensures 0 <= documentRotation < 4 && width == height ==> (r + documentRotation) % 4 == 0
    ensures 0 <= documentRotation < 4 ==> -1 <= r - (4 - documentRotation) % 4 <= 1
    ensures 0 <= documentRotation < 4 ==> r / 2 == ((4 - documentRotation) % 4) / 2
  {
    var printRotation := JsRem(4 - documentRotation, 4);
    if JsRem(printRotation, 2) == 0 && width > height then
      printRotation + 1
    else if JsRem(printRotation, 2) == 1 && height > width then
      printRotation - 1
    else
      printRotation
  }

  /** The two steps for one page, as the engine reports it: with engine
      rotations in 0..3 the print rotation is a quarter-turn count in 0..3
      whose parity matches the page's orientation, in the same pair {0, 1}
      or {2, 3} as the rotation that undoes the document's. */
  function PagePrintRotation(completeRotation: int, viewerRotation: int, width: real, height: real): (r: int)
    ensures 0 <= completeRotation < 4 && 0 <= viewerRotation < 4 ==>
      && 0 <= r < 4
      && (width > height ==> r % 2 == 1)
      && (height > width ==> r % 2 == 0)
      && (width == height ==> (r + completeRotation - viewerRotation) % 4 == 0)
      && r / 2 == ((4 - DocumentRotation(completeRotation, viewerRotation)) % 4) / 2
  {
    PrintRotation(DocumentRotation(completeRotation, viewerRotation), width, height)
  }
}
