/** The integer geometry of renderLabel (src/render.go): size validation, the two-column
    split, the vertical cursor of the header, the QR square, the bottom-anchored ID block
    and the icon square. Painting itself (glyphs, the QR bitmap, the white background) is
    not modelled: text is recorded as the placements drawTextLines makes, and the QR code
    and the icon as the squares they are drawn into. */
module Render {
  import opened Wrappers
  import opened Util
  import opened Strs
  import opened Params
  import opened Text
  import opened Fonts

  /** The error renderLabel reports for a label it cannot lay out. */
  const InvalidSize := "invalid label size"

  /** The label has a positive size and a margin that leaves at least one pixel inside. */
  predicate DimsValid(width: int, height: int, margin: int)
  {
    width > 0 && height > 0 && Interior(width, margin) >= 1 && Interior(height, margin) >= 1
  }

  /** The size checks at the top of renderLabel; on success, the inner width and height. */
  function ValidateDims(width: int, height: int, margin: int): (r: Result<(int, int), string>)
    ensures r.Failure? <==> !DimsValid(width, height, margin)
    ensures r.Failure? ==> r.error == InvalidSize
    ensures r.Success? ==> r.value.0 >= 1 && r.value.1 >= 1 &&
                           r.value.0 + 2 * margin == width && r.value.1 + 2 * margin == height
  {
    if width <= 0 || height <= 0 then Failure(InvalidSize)
    else
      var innerWidth, innerHeight := width - 2 * margin, height - 2 * margin;
      if innerWidth < 1 || innerHeight < 1 then Failure(InvalidSize)
      else Success((innerWidth, innerHeight))
  }

  /** The two columns: widths, the gap between them, their left edges, and whether the
      label collapsed to a single column. */
  datatype Columns = Columns(leftWidth: int, rightWidth: int, gap: int, leftX: int, rightX: int,
                             single: bool)

  /** The column split: the padding (never negative) separates two columns of nearly
      equal width; when they would be narrower than a pixel both take the whole inside. */
  function SplitColumns(margin: int, padding: int, innerWidth: int): (c: Columns)
    ensures c.leftX == margin
    ensures c.single <==> innerWidth < 2
    ensures c.single ==> c.leftWidth == innerWidth && c.rightWidth == innerWidth &&
                         c.gap == 0 && c.rightX == c.leftX
    ensures !c.single ==> c.gap >= 0 && c.leftWidth >= 1 &&
                          c.leftWidth + c.gap + c.rightWidth == innerWidth &&
                          0 <= c.rightWidth - c.leftWidth <= 1
    // the right column starts after the gap and ends exactly at the inner right edge
    ensures !c.single ==> c.rightX == c.leftX + c.leftWidth + c.gap &&
                          c.rightX + c.rightWidth == margin + innerWidth
  {
    var gap0 := if padding < 0 then 0 else padding;
    var gap := if innerWidth - gap0 < 2 then 0 else gap0;
    var left := GoHalf(innerWidth - gap);
    var right := innerWidth - gap - left;
    if left < 1 || right < 1 then Columns(innerWidth, innerWidth, 0, margin, margin, true)
    else Columns(left, right, gap, margin, margin + left + gap, false)
  }

  /** What the header part of renderLabel leaves behind. */
  datatype Header = Header(titleLines: seq<string>, secondary: string, secondaryTop: int,
                           cursorY: int)

  /** The title, wrapped to at most two lines and drawn from the top margin; returns the
      lines and the cursor below them. */
  method DrawTitle(title: string, margin: int, colX: int, colWidth: int, titleM: Metrics,
                   titleMeasure: Measure, bottom: int)
    returns (titleLines: seq<string>, cursorY: int, drawn: seq<Placement>)
    ensures titleLines == WrapTwoLines(title, colWidth, titleMeasure)
    ensures cursorY == margin + TextBlockHeight(titleM, |titleLines|)
    ensures drawn == Drawn(titleLines, |titleLines|, colX, margin, MaxInt(colWidth, 1), Left,
                           titleM, titleMeasure, bottom)
  {
    cursorY := margin;
    titleLines := WrapTwoLines(title, colWidth, titleMeasure);
    drawn := [];
    if |titleLines| > 0 {
      var blockHeight;
      blockHeight, drawn := DrawTextLines(titleLines, colX, cursorY, colWidth, Left,
                                          titleM, titleMeasure, bottom);
      cursorY := cursorY + TextBlockHeight(titleM, |titleLines|);
    }
  }

  /** The secondary text, trimmed, truncated to one line and drawn under the title, one
      padding lower when the title moved the cursor off the margin. */
  method DrawSecondary(secondaryText: string, margin: int, padding: int, cursorY0: int, colX: int,
                       colWidth: int, descM: Metrics, descMeasure: Measure, bottom: int)
    returns (secondary: string, top: int, cursorY: int, drawn: seq<Placement>)
    ensures secondary == (if TrimSpace(secondaryText) == "" then ""
                          else Truncated(TrimSpace(secondaryText), colWidth, descMeasure))
    ensures top == cursorY0 + (if TrimSpace(secondaryText) != "" && cursorY0 > margin then padding else 0)
    ensures cursorY == top + (if TrimSpace(secondaryText) != "" then descM.height else 0)
    ensures drawn == (if TrimSpace(secondaryText) == "" then []
                      else Drawn([secondary], 1, colX, top, MaxInt(colWidth, 1), Left,
                                 descM, descMeasure, bottom))
  {
    cursorY := cursorY0;
    secondary := TrimSpace(secondaryText);
    top := cursorY;
    drawn := [];
    if secondary != "" {
      if cursorY > margin {
        cursorY := cursorY + padding;
      }
      top := cursorY;
      secondary := TruncateWithEllipsis(secondary, colWidth, descMeasure);
      var blockHeight;
      blockHeight, drawn := DrawTextLines([secondary], colX, cursorY, colWidth, Left,
                                          descM, descMeasure, bottom);
      cursorY := cursorY + TextBlockHeight(descM, 1);
    }
  }

  /** What drawing the header down the left column yields: the wrapped title from the
      top margin, the trimmed and truncated secondary text under it, and the cursor one
      padding below whatever was drawn; `bottom` is the canvas height. */
  predicate HeaderLaidOut(h: Header, drawn: seq<Placement>, title: string, secondaryText: string,
                          margin: int, padding: int, colX: int, colWidth: int, titleM: Metrics,
                          titleMeasure: Measure, descM: Metrics, descMeasure: Measure, bottom: int)
  {
    && h.titleLines == WrapTwoLines(title, colWidth, titleMeasure)
    && h.secondary == (if TrimSpace(secondaryText) == "" then ""
                       else Truncated(TrimSpace(secondaryText), colWidth, descMeasure))
    // the padding above the secondary text is added only when the title moved the cursor
    && h.secondaryTop == margin + TextBlockHeight(titleM, |h.titleLines|) +
                         (if TrimSpace(secondaryText) != "" && |h.titleLines| > 0 && titleM.height > 0
                          then padding else 0)
    // the padding below the header is added only when something was drawn in it
    && h.cursorY == h.secondaryTop + (if TrimSpace(secondaryText) != "" then descM.height else 0) +
                    (if |h.titleLines| > 0 || h.secondary != "" then padding else 0)
    && drawn == Drawn(h.titleLines, |h.titleLines|, colX, margin, MaxInt(colWidth, 1), Left,
                      titleM, titleMeasure, bottom) +
                (if TrimSpace(secondaryText) == "" then []
                 else Drawn([h.secondary], 1, colX, h.secondaryTop, MaxInt(colWidth, 1), Left,
                            descM, descMeasure, bottom))
  }

  /** The header down the left column: the title, the secondary text, and one padding
      below when either was drawn; with a non-negative padding the cursor only moves down. */
  method DrawHeader(title: string, secondaryText: string, margin: int, padding: int,
                    colX: int, colWidth: int, titleM: Metrics, titleMeasure: Measure,
                    descM: Metrics, descMeasure: Measure, bottom: int)
    returns (h: Header, drawn: seq<Placement>)
    ensures HeaderLaidOut(h, drawn, title, secondaryText, margin, padding, colX, colWidth,
                          titleM, titleMeasure, descM, descMeasure, bottom)
    ensures padding >= 0 ==> margin <= h.secondaryTop <= h.cursorY
  {
    var titleLines, cursorY, titleDrawn := DrawTitle(title, margin, colX, colWidth, titleM,
                                                     titleMeasure, bottom);
    var secondary, top, secondaryDrawn;
    secondary, top, cursorY, secondaryDrawn := DrawSecondary(secondaryText, margin, padding, cursorY,
                                                             colX, colWidth, descM, descMeasure, bottom);
    if |titleLines| > 0 || secondary != "" {
      cursorY := cursorY + padding;
    }
    h := Header(titleLines, secondary, top, cursorY);
    drawn := titleDrawn + secondaryDrawn;
  }

  /** A square drawn on the canvas: its top-left corner and its side. */
  datatype Square = Square(x: int, y: int, size: int)

  /** The height left below the header for the QR code, never less than one pixel. */
  function AvailableHeight(height: int, margin: int, cursorY: int): (a: int)
    ensures a >= 1 && a >= height - margin - cursorY
    ensures a == 1 || a == height - margin - cursorY
  {
    var a := height - margin - cursorY;
    if a < 1 then 1 else a
  }

  /** The side of the QR code: the requested size, or when none was requested as much as
      fits, and never wider than the left column nor taller than the height left. */
  function QrSide(qrSize: int, colWidth: int, available: int): (s: int)
    ensures s <= colWidth && s <= available
    ensures qrSize <= 0 ==> s == MinInt(colWidth, available)
    ensures qrSize > 0 ==> s == MinInt(qrSize, MinInt(colWidth, available))
  {
    var s0 := if qrSize <= 0 then MinInt(colWidth, available) else qrSize;
    MinInt(MinInt(s0, colWidth), available)
  }

  /** The QR square, anchored at the left column's edge and the cursor; none when its side
      is not positive. */
  function QrSquare(height: int, margin: int, cursorY: int, qrSize: int, colX: int, colWidth: int)
    : (q: Option<Square>)
    ensures q.Some? <==> QrSide(qrSize, colWidth, AvailableHeight(height, margin, cursorY)) > 0
    ensures q.Some? ==> q.value.x == colX && q.value.y == cursorY &&
                        q.value.size == QrSide(qrSize, colWidth, AvailableHeight(height, margin, cursorY))
  {
    var side := QrSide(qrSize, colWidth, AvailableHeight(height, margin, cursorY));
    if side > 0 then Some(Square(colX, cursorY, side)) else None
  }

  /** The QR code stays inside its column, and above the bottom margin whenever the header
      left room for it. */
  lemma QrSquareInside(height: int, margin: int, cursorY: int, qrSize: int, colX: int, colWidth: int)
    requires QrSquare(height, margin, cursorY, qrSize, colX, colWidth).Some?
    ensures var q := QrSquare(height, margin, cursorY, qrSize, colX, colWidth).value;
            colX <= q.x && q.x + q.size <= colX + colWidth && q.size >= 1 &&
            (cursorY < height - margin ==> q.y + q.size <= height - margin)
  {
    var a := AvailableHeight(height, margin, cursorY);
    assert cursorY < height - margin ==> a == height - margin - cursorY;
  }

  /** The space between the "ID" caption and the ID value: half the padding, at least two. */
  function IdGap(padding: int): (g: int)
    ensures g >= 2 && g >= GoHalf(padding)
    ensures g == 2 || g == GoHalf(padding)
  {
    MaxInt(2, GoHalf(padding))
  }

  /** What drawing the ID block yields: nothing for a blank ID; otherwise the trimmed,
      truncated ID under the caption "ID", both right-aligned in the right column, the
      block resting on the bottom margin. */
  predicate IdBlockLaidOut(idText: string, blockHeight: int, drawn: seq<Placement>, idText0: string,
                           height: int, margin: int, padding: int, colX: int, colWidth: int,
                           labelM: Metrics, labelMeasure: Measure, valueM: Metrics, valueMeasure: Measure)
  {
    && (TrimSpace(idText0) == "" ==> idText == "" && blockHeight == 0 && drawn == [])
    && (TrimSpace(idText0) != "" ==>
          && idText == Truncated(TrimSpace(idText0), colWidth, valueMeasure)
          && blockHeight == labelM.height + IdGap(padding) + valueM.height
          && drawn == Drawn(["ID"], 1, colX, height - margin - blockHeight, MaxInt(colWidth, 1), Right,
                            labelM, labelMeasure, height) +
                      Drawn([idText], 1, colX, height - margin - valueM.height, MaxInt(colWidth, 1),
                            Right, valueM, valueMeasure, height))
  }

  /** The ID block: the caption "ID" above the (truncated) ID, right-aligned in the right
      column and resting on the bottom margin. Returns the block's height, zero exactly
      when there is no ID. */
  method DrawIdBlock(idText0: string, height: int, margin: int, padding: int, colX: int, colWidth: int,
                     labelM: Metrics, labelMeasure: Measure, valueM: Metrics, valueMeasure: Measure)
    returns (idText: string, blockHeight: int, drawn: seq<Placement>)
    ensures IdBlockLaidOut(idText, blockHeight, drawn, idText0, height, margin, padding, colX, colWidth,
                           labelM, labelMeasure, valueM, valueMeasure)
    ensures TrimSpace(idText0) == "" <==> blockHeight == 0
  {
    idText := TrimSpace(idText0);
    blockHeight := 0;
    drawn := [];
    if idText != "" {
      idText := TruncateWithEllipsis(idText, colWidth, valueMeasure);
      var idGap := MaxInt(2, GoHalf(padding));
      var labelHeight := TextBlockHeight(labelM, 1);
      var valueHeight := TextBlockHeight(valueM, 1);
      blockHeight := labelHeight + idGap + valueHeight;
      var idTop := height - margin - blockHeight;
      var h1, labelDrawn := DrawTextLines(["ID"], colX, idTop, colWidth, Right,
                                          labelM, labelMeasure, height);
      var h2, valueDrawn := DrawTextLines([idText], colX, idTop + labelHeight + idGap, colWidth, Right,
                                          valueM, valueMeasure, height);
      drawn := labelDrawn + valueDrawn;
    }
  }

  /** The vertical extent left for the icon: the whole inside, or the part above the ID
      block and one padding when an ID is drawn. */
  function IconArea(height: int, margin: int, padding: int, idBlockHeight: int): (a: (int, int))
    ensures a.0 == margin
    ensures idBlockHeight <= 0 ==> a.1 == height - margin
    ensures idBlockHeight > 0 ==> a.1 + padding == height - margin - idBlockHeight
  {
    var bottom := if idBlockHeight > 0 then height - margin - idBlockHeight - padding else height - margin;
    (margin, bottom)
  }

  /** int(float64(n) * 0.65) for the sizes a label can have: the float product never
      crosses an integer away from 13n/20, so this is its exact integer form. */
  function IconScale(n: int): (s: int)
    ensures n >= 0 ==> 0 <= s <= n
    ensures n >= 0 ==> 20 * s <= 13 * n < 20 * (s + 1)
  {
    if n >= 0 then 13 * n / 20 else -((-13 * n) / 20)
  }

  /** The icon square: 65% of what fits in the right column and the icon area, centred in
      both; none when the icon would be under twelve pixels. */
  function IconSquare(colX: int, colWidth: int, areaTop: int, areaBottom: int): (q: Option<Square>)
    ensures q.Some? <==> areaBottom - areaTop > 0 && colWidth > 0 &&
                         IconScale(MinInt(colWidth, areaBottom - areaTop)) >= 12
    ensures q.Some? ==> q.value.size == IconScale(MinInt(colWidth, areaBottom - areaTop))
    // centred: inside the column and the area, the two margins differing by at most one
    ensures q.Some? ==> var s := q.value;
                        && colX <= s.x && s.x + s.size <= colX + colWidth
                        && 0 <= (colX + colWidth - (s.x + s.size)) - (s.x - colX) <= 1
                        && areaTop <= s.y && s.y + s.size <= areaBottom
                        && 0 <= (areaBottom - (s.y + s.size)) - (s.y - areaTop) <= 1
  {
    var areaHeight := areaBottom - areaTop;
    if areaHeight > 0 && colWidth > 0 then
      var size := IconScale(MinInt(colWidth, areaHeight));
      if size >= 12 then
        Some(Square(colX + GoHalf(colWidth - size), areaTop + GoHalf(areaHeight - size), size))
      else None
    else None
  }

  /** The fonts renderLabel draws with: metrics and measurement for the title, the
      secondary text, the "ID" caption and the ID value. */
  datatype Faces = Faces(titleM: Metrics, titleMeasure: Measure, descM: Metrics, descMeasure: Measure,
                         idLabelM: Metrics, idLabelMeasure: Measure,
                         idValueM: Metrics, idValueMeasure: Measure)

  /** Everything renderLabel decides about where things go, and the text it places. */
  datatype Layout = Layout(columns: Columns, header: Header, headerDrawn: seq<Placement>,
                           qr: Option<Square>, idText: string, idBlockHeight: int,
                           idDrawn: seq<Placement>, icon: Option<Square>)

  /** renderLabel's layout: fails exactly on an invalid size; otherwise splits the
      columns, draws the header down the left column, places the QR code under it, rests
      the ID block on the bottom of the right column and centres the icon above it. */
  method RenderLabel(p: LabelParams, f: Faces) returns (r: Result<Layout, string>)
    ensures r.Failure? <==> !DimsValid(p.width, p.height, p.margin)
    ensures r.Failure? ==> r.error == InvalidSize
    ensures r.Success? ==>
              var l := r.value;
              && l.columns == SplitColumns(p.margin, p.padding, Interior(p.width, p.margin))
              && HeaderLaidOut(l.header, l.headerDrawn, p.titleText, p.secondaryText, p.margin,
                               p.padding, l.columns.leftX, l.columns.leftWidth, f.titleM,
                               f.titleMeasure, f.descM, f.descMeasure, p.height)
              && (p.padding >= 0 ==> p.margin <= l.header.cursorY)
              && l.qr == QrSquare(p.height, p.margin, l.header.cursorY, p.qrSize, l.columns.leftX,
                                  l.columns.leftWidth)
              && IdBlockLaidOut(l.idText, l.idBlockHeight, l.idDrawn, p.idText, p.height, p.margin,
                                p.padding, l.columns.rightX, l.columns.rightWidth, f.idLabelM,
                                f.idLabelMeasure, f.idValueM, f.idValueMeasure)
              && (TrimSpace(p.idText) == "" <==> l.idBlockHeight == 0)
              && l.icon == IconSquare(l.columns.rightX, l.columns.rightWidth,
                                      IconArea(p.height, p.margin, p.padding, l.idBlockHeight).0,
                                      IconArea(p.height, p.margin, p.padding, l.idBlockHeight).1)
  {
    var dims := ValidateDims(p.width, p.height, p.margin);
    if dims.Failure? {
      return Failure(dims.error);
    }
    var cols := SplitColumns(p.margin, p.padding, dims.value.0);
    var header, headerDrawn := DrawHeader(p.titleText, p.secondaryText, p.margin, p.padding,
                                          cols.leftX, cols.leftWidth, f.titleM, f.titleMeasure,
                                          f.descM, f.descMeasure, p.height);
    var qr := QrSquare(p.height, p.margin, header.cursorY, p.qrSize, cols.leftX, cols.leftWidth);
    var idText, idBlockHeight, idDrawn := DrawIdBlock(p.idText, p.height, p.margin, p.padding,
                                                      cols.rightX, cols.rightWidth,
                                                      f.idLabelM, f.idLabelMeasure,
                                                      f.idValueM, f.idValueMeasure);
    var area := IconArea(p.height, p.margin, p.padding, idBlockHeight);
    var icon := IconSquare(cols.rightX, cols.rightWidth, area.0, area.1);
    r := Success(Layout(cols, header, headerDrawn, qr, idText, idBlockHeight, idDrawn, icon));
  }
}
