/** The open-box icon of src/icon.go, drawn in place on a pixel grid: clipped rectangle
    fills, square pen points, Bresenham lines and the nine strokes of the box. The grid
    is indexed [x, y] over the image bounds (0, 0)-(Length0, Length1); true is black. */
module Icon {
  import opened Util

  type Point = (int, int)

  /** The pixel (i, j) lies in the rectangle of width w and height h whose top-left
      corner is (x, y); an empty rectangle holds no pixel. */
  predicate InRect(i: int, j: int, x: int, y: int, w: int, h: int)
  {
    w > 0 && h > 0 && x <= i < x + w && y <= j < y + h
  }

  /** fillRect (src/icon.go:80-89): sets to c exactly the pixels of the rectangle that
      lie inside the image; nothing else changes. */
  method FillRect(img: array2<bool>, x: int, y: int, w: int, h: int, c: bool)
    modifies img
    ensures forall i, j :: 0 <= i < img.Length0 && 0 <= j < img.Length1 ==>
              img[i, j] == if InRect(i, j, x, y, w, h) then c else old(img[i, j])
  {
    if w <= 0 || h <= 0 {
      return;
    }
    // the rectangle intersected with the image bounds
    var x0, y0 := MaxInt(x, 0), MaxInt(y, 0);
    var x1, y1 := MinInt(x + w, img.Length0), MinInt(y + h, img.Length1);
    if x0 >= x1 || y0 >= y1 {
      return;
    }
    forall i, j | x0 <= i < x1 && y0 <= j < y1 {
      img[i, j] := c;
    }
  }

  /** The thickness x thickness square of the pen centred (by truncating halving) on p. */
  predicate InPen(i: int, j: int, p: Point, thickness: int)
  {
    InRect(i, j, p.0 - GoHalf(thickness), p.1 - GoHalf(thickness), thickness, thickness)
  }

  /** drawThickPoint (src/icon.go:75-78): blackens the pen square at (x, y). */
  method DrawThickPoint(img: array2<bool>, x: int, y: int, thickness: int)
    modifies img
    ensures forall i, j :: 0 <= i < img.Length0 && 0 <= j < img.Length1 ==>
              img[i, j] == (old(img[i, j]) || InPen(i, j, (x, y), thickness))
  {
    var half := GoHalf(thickness);
    FillRect(img, x - half, y - half, thickness, thickness, true);
  }

  /** Some point of the path has the pen square over pixel (i, j). */
  predicate Covered(path: seq<Point>, thickness: int, i: int, j: int)
    decreases |path|
  {
    |path| > 0 &&
    (Covered(path[..|path| - 1], thickness, i, j) || InPen(i, j, path[|path| - 1], thickness))
  }

  lemma {:induction false} CoveredIff(path: seq<Point>, thickness: int, i: int, j: int)
    ensures Covered(path, thickness, i, j) <==>
            exists k :: 0 <= k < |path| && InPen(i, j, path[k], thickness)
    decreases |path|
  {
    if |path| > 0 {
      var init := path[..|path| - 1];
      CoveredIff(init, thickness, i, j);
      if exists k :: 0 <= k < |init| && InPen(i, j, init[k], thickness) {
        var k :| 0 <= k < |init| && InPen(i, j, init[k], thickness);
        assert path[k] == init[k];
      }
      if exists k :: 0 <= k < |path| && InPen(i, j, path[k], thickness) {
        var k :| 0 <= k < |path| && InPen(i, j, path[k], thickness);
        if k < |init| {
          assert init[k] == path[k];
        }
      }
    }
  }

  /** Putting the pen down once more covers its square as well. */
  lemma CoveredExtend(path: seq<Point>, p: Point, thickness: int)
    ensures forall i, j :: Covered(path + [p], thickness, i, j) <==>
                           Covered(path, thickness, i, j) || InPen(i, j, p, thickness)
  {
    assert (path + [p])[..|path|] == path;
  }

  /** The direction drawLine steps in along one axis: toward the end, or -1 when already
      there. */
  function Dir(from: int, to: int): (s: int)
    ensures s == 1 || s == -1
    ensures from < to ==> s == 1
    ensures from > to ==> s == -1
  {
    if from < to then 1 else -1
  }

  /** One Bresenham step: x moves by sx or stays, y moves by sy or stays, and the point
      moves. */
  predicate IsStep(p: Point, q: Point, sx: int, sy: int)
  {
    (q.0 == p.0 || q.0 == p.0 + sx) && (q.1 == p.1 || q.1 == p.1 + sy) && p != q
  }

  /** A path as drawLine walks it from p to q: it starts at p and ends at q, every move is
      one step toward q along x, along y or both, so it visits at most one point per pixel
      of distance plus the first. */
  predicate IsLine(path: seq<Point>, p: Point, q: Point)
  {
    && |path| >= 1 && path[0] == p && path[|path| - 1] == q
    && |path| <= AbsInt(q.0 - p.0) + AbsInt(q.1 - p.1) + 1
    && forall k :: 0 <= k < |path| - 1 ==> IsStep(path[k], path[k + 1], Dir(p.0, q.0), Dir(p.1, q.1))
  }

  /** Along a run of steps in one direction each coordinate only moves that way. */
  lemma {:induction false} StepsMonotone(path: seq<Point>, sx: int, sy: int, k: nat, m: nat)
    requires k <= m < |path|
    requires sx == 1 || sx == -1
    requires sy == 1 || sy == -1
    requires forall n :: 0 <= n < |path| - 1 ==> IsStep(path[n], path[n + 1], sx, sy)
    ensures sx == 1 ==> path[k].0 <= path[m].0
    ensures sx == -1 ==> path[k].0 >= path[m].0
    ensures sy == 1 ==> path[k].1 <= path[m].1
    ensures sy == -1 ==> path[k].1 >= path[m].1
    decreases m - k
  {
    if k < m {
      StepsMonotone(path, sx, sy, k + 1, m);
      assert IsStep(path[k], path[k + 1], sx, sy);
    }
  }

  /** A line never leaves the rectangle spanned by its two ends. */
  lemma LineInBox(path: seq<Point>, p: Point, q: Point)
    requires IsLine(path, p, q)
    ensures forall k :: 0 <= k < |path| ==>
              && MinInt(p.0, q.0) <= path[k].0 <= MaxInt(p.0, q.0)
              && MinInt(p.1, q.1) <= path[k].1 <= MaxInt(p.1, q.1)
  {
    forall k | 0 <= k < |path|
      ensures MinInt(p.0, q.0) <= path[k].0 <= MaxInt(p.0, q.0)
      ensures MinInt(p.1, q.1) <= path[k].1 <= MaxInt(p.1, q.1)
    {
      StepsMonotone(path, Dir(p.0, q.0), Dir(p.1, q.1), 0, k);
      StepsMonotone(path, Dir(p.0, q.0), Dir(p.1, q.1), k, |path| - 1);
    }
  }

  /** drawLine's error term after a steps along x and b steps along y, for a line of
      extent dx across and -dy down (dy is not positive, as in the source): it starts at
      dx + dy, and every x step adds dy and every y step adds dx. */
  function BresenhamError(dx: int, dy: int, a: nat, b: nat): int
    decreases a + b
  {
    if a > 0 then BresenhamError(dx, dy, a - 1, b) + dy
    else if b > 0 then BresenhamError(dx, dy, 0, b - 1) + dx
    else dx + dy
  }

  /** The error term in closed form. */
  lemma {:induction false} BresenhamErrorClosed(dx: int, dy: int, a: nat, b: nat)
    ensures BresenhamError(dx, dy, a, b) == dx * (1 + b) + dy * (1 + a)
    decreases a + b
  {
    if a > 0 {
      BresenhamErrorClosed(dx, dy, a - 1, b);
      assert dy * (1 + a) == dy * a + dy;
    } else if b > 0 {
      BresenhamErrorClosed(dx, dy, 0, b - 1);
      assert dx * (1 + b) == dx * b + dx;
    }
  }

  /** A y step adds dx to the error term whatever the x steps before it. */
  lemma {:induction false} BresenhamErrorY(dx: int, dy: int, a: nat, b: nat)
    ensures BresenhamError(dx, dy, a, b + 1) == BresenhamError(dx, dy, a, b) + dx
    decreases a
  {
    if a > 0 {
      BresenhamErrorY(dx, dy, a - 1, b);
    }
  }

  /** The error term cannot carry a coordinate past its end: once x has made all dx of its
      steps, x stays put until y has made its dy steps, and the other way round. */
  lemma NoOvershoot(dx: nat, dy: nat, a: nat, b: nat, err: int)
    requires a <= dx && b <= dy && !(a == dx && b == dy)
    requires err == dx * (1 + b) - dy * (1 + a)
    ensures a == dx ==> 2 * err + dy < 0
    ensures b == dy ==> 2 * err > dx
  {
    if a == dx {
      XDone(dx, dy, b);
    }
    if b == dy {
      YDone(dx, dy, a);
    }
  }

  lemma MulLe(k: nat, u: int, v: int)
    requires u <= v
    ensures k * u <= k * v
  {
  }

  /** x has made all its steps while y has not: the error term forbids another x step. */
  lemma XDone(dx: nat, dy: nat, b: nat)
    requires b < dy
    ensures 2 * (dx * (1 + b) - dy * (1 + dx)) + dy < 0
  {
    MulLe(dx, 1 + b, dy);
    assert dy * (1 + dx) == dy + dx * dy;
  }

  /** y has made all its steps while x has not: the error term forbids another y step. */
  lemma YDone(dx: nat, dy: nat, a: nat)
    requires a < dx
    ensures 2 * (dx * (1 + dy) - dy * (1 + a)) > dx
  {
    MulLe(dy, 1 + a, dx);
    assert dx * (1 + dy) == dx + dx * dy;
    assert dy * dx == dx * dy;
  }

  /** One turn of drawLine's loop short of the end: at least one coordinate moves, none
      moves past its end, and the error term follows the steps taken. */
  lemma BresenhamStep(dx: nat, dy: nat, a: nat, b: nat, err: int)
    requires a <= dx && b <= dy && !(a == dx && b == dy)
    requires err == BresenhamError(dx, -(dy as int), a, b)
    ensures 2 * err >= -(dy as int) || 2 * err <= dx
    ensures 2 * err >= -(dy as int) ==> a < dx
    ensures 2 * err <= dx ==> b < dy
    ensures err - dy == BresenhamError(dx, -(dy as int), a + 1, b)
    ensures err + dx == BresenhamError(dx, -(dy as int), a, b + 1)
    ensures err - dy + dx == BresenhamError(dx, -(dy as int), a + 1, b + 1)
  {
    BresenhamErrorClosed(dx, -(dy as int), a, b);
    NoOvershoot(dx, dy, a, b, err);
    BresenhamErrorY(dx, -(dy as int), a, b);
    BresenhamErrorY(dx, -(dy as int), a + 1, b);
  }

  /** drawLine (src/icon.go:45-73): Bresenham's line from (x0, y0) to (x1, y1), the pen put
      down at every point of the returned path. The path starts at (x0, y0), ends at
      (x1, y1), and every step moves each coordinate by at most one toward its end. */
  method DrawLine(img: array2<bool>, x0: int, y0: int, x1: int, y1: int, thickness: int)
    returns (ghost path: seq<Point>)
    modifies img
    ensures |path| >= 1 && path[0] == (x0, y0) && path[|path| - 1] == (x1, y1)
    ensures |path| <= AbsInt(x1 - x0) + AbsInt(y1 - y0) + 1
    ensures forall k :: 0 <= k < |path| - 1 ==> IsStep(path[k], path[k + 1], Dir(x0, x1), Dir(y0, y1))
    ensures forall i, j :: 0 <= i < img.Length0 && 0 <= j < img.Length1 ==>
              img[i, j] == (old(img[i, j]) || Covered(path, thickness, i, j))
  {
    var dx := AbsInt(x1 - x0);
    var dy := -AbsInt(y1 - y0);
    var sx := -1;
    if x0 < x1 {
      sx := 1;
    }
    var sy := -1;
    if y0 < y1 {
      sy := 1;
    }
    var err := dx + dy;
    var x, y := x0, y0;
    ghost var a: nat, b: nat := 0, 0;   // steps taken along x and along y
    path := [];
    while true
      invariant a <= dx && b <= -dy
      invariant (sx == 1 ==> x == x0 + a) && (sx == -1 ==> x == x0 - a)
      invariant (sy == 1 ==> y == y0 + b) && (sy == -1 ==> y == y0 - b)
      invariant err == BresenhamError(dx, dy, a, b)
      invariant |path| <= a + b
      invariant |path| == 0 ==> a == 0 && b == 0
      invariant |path| > 0 ==> path[0] == (x0, y0) && IsStep(path[|path| - 1], (x, y), sx, sy)
      invariant forall k :: 0 <= k < |path| - 1 ==> IsStep(path[k], path[k + 1], sx, sy)
      invariant forall i, j :: 0 <= i < img.Length0 && 0 <= j < img.Length1 ==>
                  img[i, j] == (old(img[i, j]) || Covered(path, thickness, i, j))
      decreases dx - a + (-dy - b)
    {
      DrawThickPoint(img, x, y, thickness);
      CoveredExtend(path, (x, y), thickness);
      path := path + [(x, y)];
      if x == x1 && y == y1 {
        break;
      }
      BresenhamStep(dx, -dy, a, b, err);
      var e2 := 2 * err;
      if e2 >= dy {
        err := err + dy;
        x := x + sx;
        a := a + 1;
      }
      if e2 <= dx {
        err := err + dx;
        y := y + sy;
        b := b + 1;
      }
    }
  }

  /** The stroke thickness of the icon: w/14 kept within 2 to 5 pixels. */
  function Thickness(w: int): (t: int)
    ensures 2 <= t <= 5
    ensures w < 28 ==> t == 2
    ensures 28 <= w < 84 ==> t == MinInt(w / 14, 5)
    ensures w >= 70 ==> t == 5
  {
    var t := if w >= 0 then w / 14 else -((-w) / 14);
    if t < 2 then 2 else if t > 5 then 5 else t
  }

  /** The corners of the box, which the source derives from the icon size with
      floating-point fractions. */
  datatype Box = Box(frontLeftX: int, frontRightX: int, frontTopY: int, frontBottomY: int,
                     flapLeftX: int, flapRightX: int, flapSideY: int, flapPeakY: int)

  /** The nine strokes of the open box, in drawing order: the four edges of the front
      face, the four edges of the flaps, and the seam from the peak down to the front. */
  function BoxSegments(x: int, w: int, b: Box): (segs: seq<(Point, Point)>)
    ensures |segs| == 9
  {
    var peakX := x + GoHalf(w);
    [((b.frontLeftX, b.frontTopY), (b.frontRightX, b.frontTopY)),
     ((b.frontRightX, b.frontTopY), (b.frontRightX, b.frontBottomY)),
     ((b.frontRightX, b.frontBottomY), (b.frontLeftX, b.frontBottomY)),
     ((b.frontLeftX, b.frontBottomY), (b.frontLeftX, b.frontTopY)),
     ((b.frontLeftX, b.frontTopY), (b.flapLeftX, b.flapSideY)),
     ((b.flapLeftX, b.flapSideY), (peakX, b.flapPeakY)),
     ((peakX, b.flapPeakY), (b.flapRightX, b.flapSideY)),
     ((b.flapRightX, b.flapSideY), (b.frontRightX, b.frontTopY)),
     ((peakX, b.flapPeakY), (peakX, b.frontTopY))]
  }

  /** The four front-face strokes go round the face and come back where they started. */
  lemma FrontFaceCloses(x: int, w: int, b: Box)
    ensures var s := BoxSegments(x, w, b);
            s[0].1 == s[1].0 && s[1].1 == s[2].0 && s[2].1 == s[3].0 && s[3].1 == s[0].0
  {
  }

  /** Some stroke's path has the pen over pixel (i, j). */
  predicate CoveredAny(paths: seq<seq<Point>>, thickness: int, i: int, j: int)
    decreases |paths|
  {
    |paths| > 0 &&
    (CoveredAny(paths[..|paths| - 1], thickness, i, j) || Covered(paths[|paths| - 1], thickness, i, j))
  }

  /** The path of each stroke is a line from its start to its end. */
  predicate Traces(paths: seq<seq<Point>>, segs: seq<(Point, Point)>)
  {
    |paths| <= |segs| &&
    forall s :: 0 <= s < |paths| ==> IsLine(paths[s], segs[s].0, segs[s].1)
  }

  /** drawLine for stroke number |paths| of segs, extending the record of drawn paths. */
  method DrawStroke(img: array2<bool>, x0: int, y0: int, x1: int, y1: int, thickness: int,
                    ghost segs: seq<(Point, Point)>, ghost paths: seq<seq<Point>>)
    returns (ghost paths': seq<seq<Point>>)
    requires |paths| < |segs| && Traces(paths, segs) && segs[|paths|] == ((x0, y0), (x1, y1))
    modifies img
    ensures |paths'| == |paths| + 1 && paths'[..|paths|] == paths && Traces(paths', segs)
    ensures forall i, j :: 0 <= i < img.Length0 && 0 <= j < img.Length1 ==>
              img[i, j] == (old(img[i, j]) || Covered(paths'[|paths|], thickness, i, j))
  {
    ghost var path := DrawLine(img, x0, y0, x1, y1, thickness);
    assert IsLine(path, (x0, y0), (x1, y1));
    paths' := paths + [path];
  }

  /** One more path covers what the earlier ones did, and what it covers itself. */
  lemma Accumulated(before: seq<seq<Point>>, paths: seq<seq<Point>>, thickness: int)
    requires |paths| == |before| + 1 && paths[..|before|] == before
    ensures forall i, j :: CoveredAny(paths, thickness, i, j) <==>
                           CoveredAny(before, thickness, i, j) || Covered(paths[|before|], thickness, i, j)
  {
  }

  /** drawOpenBoxIcon (src/icon.go:9-43): nothing for an empty size; otherwise the nine
      strokes of the box with the clamped thickness. Pixels are only ever blackened. */
  method DrawOpenBoxIcon(img: array2<bool>, x: int, y: int, w: int, h: int, b: Box)
    returns (ghost paths: seq<seq<Point>>)
    modifies img
    ensures w <= 0 || h <= 0 ==> paths == []
    ensures w > 0 && h > 0 ==> |paths| == 9 && Traces(paths, BoxSegments(x, w, b))
    ensures forall i, j :: 0 <= i < img.Length0 && 0 <= j < img.Length1 ==>
              img[i, j] == (old(img[i, j]) || CoveredAny(paths, Thickness(w), i, j))
  {
    paths := [];
    if w <= 0 || h <= 0 {
      return;
    }
    var thickness := w / 14;
    if thickness < 2 {
      thickness := 2;
    }
    if thickness > 5 {
      thickness := 5;
    }
    assert thickness == Thickness(w);
    var frontLeftX, frontRightX := b.frontLeftX, b.frontRightX;
    var frontTopY, frontBottomY := b.frontTopY, b.frontBottomY;
    var flapLeftX, flapRightX, flapSideY := b.flapLeftX, b.flapRightX, b.flapSideY;
    var flapPeakX := x + w / 2;
    var flapPeakY := b.flapPeakY;
    ghost var segs := BoxSegments(x, w, b);
    ghost var before := paths;
    paths := DrawStroke(img, frontLeftX, frontTopY, frontRightX, frontTopY, thickness, segs, paths);
    Accumulated(before, paths, thickness);
    before := paths;
    paths := DrawStroke(img, frontRightX, frontTopY, frontRightX, frontBottomY, thickness, segs, paths);
    Accumulated(before, paths, thickness);
    before := paths;
    paths := DrawStroke(img, frontRightX, frontBottomY, frontLeftX, frontBottomY, thickness, segs, paths);
    Accumulated(before, paths, thickness);
    before := paths;
    paths := DrawStroke(img, frontLeftX, frontBottomY, frontLeftX, frontTopY, thickness, segs, paths);
    Accumulated(before, paths, thickness);
    before := paths;
    paths := DrawStroke(img, frontLeftX, frontTopY, flapLeftX, flapSideY, thickness, segs, paths);
    Accumulated(before, paths, thickness);
    before := paths;
    paths := DrawStroke(img, flapLeftX, flapSideY, flapPeakX, flapPeakY, thickness, segs, paths);
    Accumulated(before, paths, thickness);
    before := paths;
    paths := DrawStroke(img, flapPeakX, flapPeakY, flapRightX, flapSideY, thickness, segs, paths);
    Accumulated(before, paths, thickness);
    before := paths;
    paths := DrawStroke(img, flapRightX, flapSideY, frontRightX, frontTopY, thickness, segs, paths);
    Accumulated(before, paths, thickness);
    before := paths;
    paths := DrawStroke(img, flapPeakX, flapPeakY, flapPeakX, frontTopY, thickness, segs, paths);
    Accumulated(before, paths, thickness);
  }
}
