/** Line drawing arithmetic of fonts.go: alignment, baselines, the skipping of lines that
    would cross the bottom of the destination, and the height of a block of lines.
    Font metrics are abstract non-negative whole pixels and text measurement is a
    parameter; glyph rasterisation itself is not modelled: a drawn line is recorded as
    the place where its text is put. */
module Fonts {
  import opened Util
  import opened Text

  /** textAlign */
  datatype Align = Left | Center | Right

  /** The face's metrics, each already rounded up to whole pixels (Height, Ascent and
      Descent of font.Metrics after Ceil). */
  datatype Metrics = Metrics(height: nat, ascent: nat, descent: nat)

  /** One DrawString call: which line, and the dot it starts from. */
  datatype Placement = Placement(index: nat, text: string, x: int, baseline: int)

  /** textBlockHeight: the height of `lines` lines of the face. */
  function TextBlockHeight(m: Metrics, lines: int): (h: nat)
    ensures lines <= 0 ==> h == 0
    ensures lines > 0 ==> h == m.height * lines
    ensures h > 0 <==> lines > 0 && m.height > 0
  {
    if lines <= 0 then 0 else m.height * lines
  }

  /** The x at which a line of width lineWidth starts in a box of width maxWidth at x:
      flush left, flush right, or centred with Go's truncating halving. */
  function AlignedX(x: int, maxWidth: int, lineWidth: int, align: Align): (ax: int)
    ensures align == Left ==> ax == x
    ensures align == Right ==> ax + lineWidth == x + maxWidth
    // centred: the gaps left and right of the line differ by at most one pixel
    ensures align == Center ==>
              var left, right := ax - x, (x + maxWidth) - (ax + lineWidth);
              (lineWidth <= maxWidth ==> 0 <= right - left <= 1) &&
              (lineWidth > maxWidth ==> 0 <= left - right <= 1)
  {
    match align
    case Left => x
    case Center => x + GoHalf(maxWidth - lineWidth)
    case Right => x + maxWidth - lineWidth
  }

  /** The baseline of line i of a block whose top is topY. */
  function Baseline(topY: int, m: Metrics, i: nat): int
  {
    topY + m.ascent + i * m.height
  }

  /** A line is drawn only when its descent stays within the bottom bound. */
  predicate Visible(topY: int, m: Metrics, i: nat, bottom: int)
  {
    Baseline(topY, m, i) + m.descent <= bottom
  }

  /** Where line i goes. */
  function Place(lines: seq<string>, i: nat, x: int, topY: int, maxWidth: int, align: Align,
                 m: Metrics, measure: Measure): Placement
    requires i < |lines|
  {
    Placement(i, lines[i], AlignedX(x, maxWidth, measure(lines[i]), align), Baseline(topY, m, i))
  }

  /** The DrawString calls for the first n lines, in order. */
  function Drawn(lines: seq<string>, n: nat, x: int, topY: int, maxWidth: int, align: Align,
                 m: Metrics, measure: Measure, bottom: int): (d: seq<Placement>)
    requires n <= |lines|
    // at most one call per line
    ensures |d| <= n
  {
    if n == 0 then []
    else
      Drawn(lines, n - 1, x, topY, maxWidth, align, m, measure, bottom) +
      (if Visible(topY, m, n - 1, bottom) then [Place(lines, n - 1, x, topY, maxWidth, align, m, measure)]
       else [])
  }

  /** drawTextLines (fonts.go:33-64): draws each line whose descent fits above `bottom`
      (the destination's Max.Y) and returns the height of the whole block, skipped lines
      included. A width below one pixel is raised to one before aligning. */
  method DrawTextLines(lines: seq<string>, x: int, topY: int, maxWidth: int, align: Align,
                       m: Metrics, measure: Measure, bottom: int)
    returns (height: int, drawn: seq<Placement>)
    ensures height == TextBlockHeight(m, |lines|)
    ensures drawn == Drawn(lines, |lines|, x, topY, MaxInt(maxWidth, 1), align, m, measure, bottom)
  {
    if |lines| == 0 {
      return 0, [];
    }
    var width := maxWidth;
    if width < 1 {
      width := 1;
    }
    drawn := [];
    for i := 0 to |lines|
      invariant drawn == Drawn(lines, i, x, topY, width, align, m, measure, bottom)
    {
      var lineWidth := measure(lines[i]);
      var alignedX := x;
      match align {
        case Center =>
          alignedX := x + GoHalf(width - lineWidth);
        case Right =>
          alignedX := x + width - lineWidth;
        case Left =>
      }
      var y := topY + m.ascent + i * m.height;
      assert Placement(i, lines[i], alignedX, y) == Place(lines, i, x, topY, width, align, m, measure);
      if y + m.descent > bottom {
        continue;
      }
      drawn := drawn + [Placement(i, lines[i], alignedX, y)];
    }
    height := m.height * |lines|;
  }

  /** A drawn line is one of the first n, with its own text, baseline and aligned x, and
      its descent stays within the bottom bound. */
  predicate PlacedRight(lines: seq<string>, n: nat, p: Placement, x: int, topY: int, maxWidth: int,
                        align: Align, m: Metrics, measure: Measure, bottom: int)
    requires n <= |lines|
  {
    && p.index < n && p.text == lines[p.index]
    && p.baseline == Baseline(topY, m, p.index)
    && p.x == AlignedX(x, maxWidth, measure(lines[p.index]), align)
    && p.baseline + m.descent <= bottom
  }

  /** Every drawn line is placed right, and lines come in increasing order. */
  lemma {:induction false} DrawnPlacements(lines: seq<string>, n: nat, x: int, topY: int, maxWidth: int,
                                           align: Align, m: Metrics, measure: Measure, bottom: int)
    requires n <= |lines|
    ensures forall k :: 0 <= k < |Drawn(lines, n, x, topY, maxWidth, align, m, measure, bottom)| ==>
              PlacedRight(lines, n, Drawn(lines, n, x, topY, maxWidth, align, m, measure, bottom)[k],
                          x, topY, maxWidth, align, m, measure, bottom)
    ensures forall k, l :: 0 <= k < l < |Drawn(lines, n, x, topY, maxWidth, align, m, measure, bottom)| ==>
              Drawn(lines, n, x, topY, maxWidth, align, m, measure, bottom)[k].index <
              Drawn(lines, n, x, topY, maxWidth, align, m, measure, bottom)[l].index
  {
    if n > 0 {
      var d := Drawn(lines, n, x, topY, maxWidth, align, m, measure, bottom);
      var prev := Drawn(lines, n - 1, x, topY, maxWidth, align, m, measure, bottom);
      DrawnPlacements(lines, n - 1, x, topY, maxWidth, align, m, measure, bottom);
      forall k | 0 <= k < |d|
        ensures PlacedRight(lines, n, d[k], x, topY, maxWidth, align, m, measure, bottom)
        ensures k < |prev| ==> d[k] == prev[k]
        ensures k >= |prev| ==> d[k].index == n - 1
      {
        if k < |prev| {
          assert d[k] == prev[k];
          assert PlacedRight(lines, n - 1, prev[k], x, topY, maxWidth, align, m, measure, bottom);
        } else {
          assert d[k] == Place(lines, n - 1, x, topY, maxWidth, align, m, measure);
        }
      }
      forall k, l | 0 <= k < l < |d|
        ensures d[k].index < d[l].index
      {
        assert PlacedRight(lines, n - 1, prev[k], x, topY, maxWidth, align, m, measure, bottom);
      }
    }
  }

  /** A line is drawn exactly when its descent fits: lines past the bottom are skipped
      whole, never drawn in part. */
  lemma {:induction false} DrawnIffVisible(lines: seq<string>, n: nat, x: int, topY: int, maxWidth: int,
                                           align: Align, m: Metrics, measure: Measure, bottom: int, i: nat)
    requires i < n <= |lines|
    ensures Visible(topY, m, i, bottom) <==>
            exists k :: 0 <= k < |Drawn(lines, n, x, topY, maxWidth, align, m, measure, bottom)| &&
                        Drawn(lines, n, x, topY, maxWidth, align, m, measure, bottom)[k].index == i
    decreases n
  {
    if i < n - 1 {
      DrawnIffVisible(lines, n - 1, x, topY, maxWidth, align, m, measure, bottom, i);
      DrawnEarlierLine(lines, n, n - 1, x, topY, maxWidth, align, m, measure, bottom, i);
    } else {
      DrawnLastLine(lines, n, x, topY, maxWidth, align, m, measure, bottom);
    }
  }

  /** Drawing one more line, n = p + 1, leaves the calls for the earlier lines as they were. */
  lemma DrawnEarlierLine(lines: seq<string>, n: nat, p: nat, x: int, topY: int, maxWidth: int,
                         align: Align, m: Metrics, measure: Measure, bottom: int, i: nat)
    requires n == p + 1 && i < p && n <= |lines|
    ensures (exists k :: 0 <= k < |Drawn(lines, n, x, topY, maxWidth, align, m, measure, bottom)| &&
                         Drawn(lines, n, x, topY, maxWidth, align, m, measure, bottom)[k].index == i)
            <==>
            (exists k :: 0 <= k < |Drawn(lines, p, x, topY, maxWidth, align, m, measure, bottom)| &&
                         Drawn(lines, p, x, topY, maxWidth, align, m, measure, bottom)[k].index == i)
  {
    var d := Drawn(lines, n, x, topY, maxWidth, align, m, measure, bottom);
    var prev := Drawn(lines, p, x, topY, maxWidth, align, m, measure, bottom);
    assert d == prev + (if Visible(topY, m, p, bottom)
                        then [Place(lines, p, x, topY, maxWidth, align, m, measure)] else []);
    if k :| 0 <= k < |prev| && prev[k].index == i {
      assert d[k] == prev[k];
      assert exists j :: 0 <= j < |Drawn(lines, n, x, topY, maxWidth, align, m, measure, bottom)| &&
                         Drawn(lines, n, x, topY, maxWidth, align, m, measure, bottom)[j].index == i;
    }
    if k :| 0 <= k < |d| && d[k].index == i {
      assert k < |prev|;
      assert prev[k] == d[k];
      assert exists j :: 0 <= j < |Drawn(lines, p, x, topY, maxWidth, align, m, measure, bottom)| &&
                         Drawn(lines, p, x, topY, maxWidth, align, m, measure, bottom)[j].index == i;
    }
  }

  /** The last of the first n lines is drawn exactly when its descent fits. */
  lemma DrawnLastLine(lines: seq<string>, n: nat, x: int, topY: int, maxWidth: int,
                      align: Align, m: Metrics, measure: Measure, bottom: int)
    requires 0 < n <= |lines|
    ensures Visible(topY, m, n - 1, bottom) <==>
            exists k :: 0 <= k < |Drawn(lines, n, x, topY, maxWidth, align, m, measure, bottom)| &&
                        Drawn(lines, n, x, topY, maxWidth, align, m, measure, bottom)[k].index == n - 1
  {
    var d := Drawn(lines, n, x, topY, maxWidth, align, m, measure, bottom);
    var prev := Drawn(lines, n - 1, x, topY, maxWidth, align, m, measure, bottom);
    assert d == prev + (if Visible(topY, m, n - 1, bottom)
                        then [Place(lines, n - 1, x, topY, maxWidth, align, m, measure)] else []);
    DrawnPlacements(lines, n - 1, x, topY, maxWidth, align, m, measure, bottom);
    if Visible(topY, m, n - 1, bottom) {
      assert d[|prev|] == Place(lines, n - 1, x, topY, maxWidth, align, m, measure);
      assert |prev| < |d| && d[|prev|].index == n - 1;
      assert exists k :: 0 <= k < |Drawn(lines, n, x, topY, maxWidth, align, m, measure, bottom)| &&
                         Drawn(lines, n, x, topY, maxWidth, align, m, measure, bottom)[k].index == n - 1;
    } else {
      forall k | 0 <= k < |d|
        ensures d[k].index != n - 1
      {
        assert PlacedRight(lines, n - 1, prev[k], x, topY, maxWidth, align, m, measure, bottom);
      }
    }
  }
}
