/**
 * Where the cross-section drawing of the beam designer puts the bars: evenly
 * spaced from `cover` to `b - cover`, or a single bar at `b / 2`. The spacing
 * `(b - 2 cover) / (n_bars - 1)` is only computed when there are at least two
 * bars, so it never divides by zero. All lengths are in mm.
 */
module Layout {
  import opened RealMath

  /** The horizontal position of bar `i` of `n`. */
  function BarX(b: int, cover: int, n: int, i: int): real {
    if n > 1 then cover as real + i as real * ((b - 2 * cover) as real / (n - 1) as real)
    else b as real / 2.0
  }

  /**
   * The positions at which `for i in range(n_bars)` places its circles:
   * one per bar, the first at `cover` and the last at `b - cover` with equal
   * gaps, a single bar at the middle of the width, none for `n_bars <= 0`.
   */
  method BarPositions(b: int, cover: int, n: int) returns (xs: seq<real>)
    ensures |xs| == if n > 0 then n else 0
    ensures forall i :: 0 <= i < |xs| ==> xs[i] == BarX(b, cover, n, i)
    ensures n == 1 ==> xs == [b as real / 2.0]
    ensures n > 1 ==> xs[0] == cover as real && xs[n - 1] == (b - cover) as real
    ensures n > 1 ==> forall i :: 0 <= i < n - 1 ==>
      xs[i + 1] - xs[i] == (b - 2 * cover) as real / (n - 1) as real
  {
    var spacing := if n > 1 then (b - 2 * cover) as real / (n - 1) as real else 0.0;
    xs := [];
    var i := 0;
    while i < n
      invariant 0 <= i <= (if n > 0 then n else 0)
      invariant |xs| == i
      invariant forall j :: 0 <= j < i ==> xs[j] == BarX(b, cover, n, j)
    {
      var xPos := if n > 1 then cover as real + i as real * spacing else b as real / 2.0;
      xs := xs + [xPos];
      i := i + 1;
    }
    if n > 1 {
      BarEnds(b, cover, n);
      forall j | 0 <= j < n - 1
        ensures xs[j + 1] - xs[j] == spacing
      {
        BarGap(b, cover, n, j);
      }
    }
  }

  /** The outer bars sit on the cover lines. */
  lemma BarEnds(b: int, cover: int, n: int)
    requires n > 1
    ensures BarX(b, cover, n, 0) == cover as real
    ensures BarX(b, cover, n, n - 1) == (b - cover) as real
  {
    var w, k := (b - 2 * cover) as real, (n - 1) as real;
    assert k * (w / k) == w;
  }

  /** Neighbouring bars are one spacing apart. */
  lemma BarGap(b: int, cover: int, n: int, i: int)
    requires n > 1
    ensures BarX(b, cover, n, i + 1) - BarX(b, cover, n, i) == (b - 2 * cover) as real / (n - 1) as real
  {
    var spacing := (b - 2 * cover) as real / (n - 1) as real;
    assert (i + 1) as real * spacing == i as real * spacing + spacing;
  }

  /** With a positive spacing, bar positions strictly increase. */
  lemma BarsIncrease(b: int, cover: int, n: int, i: int, j: int)
    requires b > 2 * cover && n > 1 && i < j
    ensures BarX(b, cover, n, i) < BarX(b, cover, n, j)
  {
    var spacing := (b - 2 * cover) as real / (n - 1) as real;
    MulPositive((j - i) as real, spacing);
    assert BarX(b, cover, n, j) - BarX(b, cover, n, i) == (j - i) as real * spacing;
  }

  /**
   * When the section is wider than twice the cover, the bars run strictly
   * left to right and stay between the cover lines.
   */
  lemma BarsInsideCover(b: int, cover: int, n: int, i: int, j: int)
    requires b > 2 * cover && 0 <= i < j < n
    ensures cover as real <= BarX(b, cover, n, i) < BarX(b, cover, n, j) <= (b - cover) as real
  {
    BarEnds(b, cover, n);
    if 0 < i {
      BarsIncrease(b, cover, n, 0, i);
    }
    BarsIncrease(b, cover, n, i, j);
    if j < n - 1 {
      BarsIncrease(b, cover, n, j, n - 1);
    }
  }
}
