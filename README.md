# homebox-label-service core, modelled in Dafny

The label service turns a set of query parameters into a printable PNG label. The label holds:

- a title and a secondary line of text in the left column;
- a QR code for the item's URL under the text;
- a bottom-right "ID" block;
- an open-box icon in the right column.

This project models the parts of the service that are integer geometry, string fitting and byte splicing, and proves what they promise:

- **params.dfy (`Params`).** Derives the label parameters from the raw query (`parseLabelParams`):
  - a case-insensitive key lookup;
  - decimal integer parsing;
  - defaults and clamps;
  - promotion of the secondary text to the title;
  - the item ID taken from the URL path;
  - the `" "` URL sentinel.
- **text.dfy (`Text`).** Fits text into a pixel width, over an abstract measuring function:
  - `truncateWithEllipsis`;
  - the greedy word packer `buildLine`;
  - `ensureEllipsis`;
  - `wrapTwoLines`.
- **fonts.dfy (`Fonts`).** `drawTextLines` and `textBlockHeight`:
  - alignment;
  - baselines;
  - whole-line skipping at the bottom edge;
  - block height.
- **render.dfy (`Render`).** The geometry of `renderLabel`:
  - dimension validation;
  - the column split;
  - the advance of the header cursor;
  - QR size and place;
  - the bottom-anchored ID block;
  - the icon area and square.
- **png.dfy (`Png`).** `addPhysChunk` and `encodePNGWithDPI`:
  - the PNG signature and IHDR checks;
  - big-endian u32 encoding;
  - CRC-32;
  - the 21-byte `pHYs` chunk, spliced right after `IHDR`;
  - reading the chunk back.
- **icon.dfy (`Icon`).** Rasterises the open-box icon onto a mutable pixel grid (`array2<bool>`, indexed `[x, y]`, `true` is black):
  - the clipped `fillRect`;
  - `drawThickPoint`;
  - the Bresenham `drawLine`;
  - the nine strokes of `drawOpenBoxIcon`.
- **util.dfy (`Util`).** `absInt`, `maxInt` and `minInt`, plus Go's truncating halving.
- **strs.dfy (`Strs`).** The Go `strings` functions the core relies on: `TrimSpace`, `Fields`, `Split`, `HasSuffix`, `TrimSuffix` and `EqualFold`.
- **wrappers.dfy (`Wrappers`).** `Option` and `Result`.

Where the code is imperative, the model is imperative too:

- The parameter clamps are a sequence of methods on the record.
- `buildLine`, `truncateWithEllipsis` and `drawTextLines` are loops.
- The `pHYs` payload is filled in place in an array.
- The icon methods write a 2-D array under `modifies`.

Some methods are proved equal to a pure function, and the properties are proved about that function:

- `Text.ShrinkRunes` computes `Text.ShrinkToFit`, and `Text.TruncateWithEllipsis` computes `Text.Truncated`.
- `Text.BuildLine` computes `Text.Packed`.
- `Fonts.DrawTextLines` returns `Fonts.TextBlockHeight` and the placements `Fonts.Drawn`.
- `Png.AddPhysChunk` and `Png.EncodePngWithDpi` compute `Png.AddPhys`.

The other methods state their new state directly:

- The clamps in `Params` state every field of the new record.
- `Render.DrawHeader` and `Render.DrawIdBlock` state their outputs through the predicates `HeaderLaidOut` and `IdBlockLaidOut`, and `Render.RenderLabel` states the whole layout through them.
- The icon methods state the new colour of every pixel.

### Layout choices of the code

The model follows the code in `src/`:

- **ID extraction.** The ID is the trimmed segment after the first path segment equal to `item` that has a successor (src/params.go:169-174).
- **Columns.** The gap is `max(padding, 0)`, set to 0 when less than 2 pixels would remain, and the interior is split evenly (src/render.go:30-38).
- **Title.** The title is wrapped onto up to two lines of the left column's width (src/render.go:83).
- **Secondary text.** The gap above the secondary line is `padding`, added only if the title advanced the cursor (src/render.go:91-93).
- **QR code.** The QR code is anchored at the cursor, under the header (src/render.go:120-122).
- **Icon area.** The icon area starts at the top margin (src/render.go:141).
- **Icon segments.** The icon has nine segments, the ninth being the flap seam (src/icon.go:32-42).
- **ID font sizes.** They are `max(0.75·d, 10)` and `max(1.15·d, d+2)` (src/render.go:60-61). They sit outside the model, as faces are parameters.

## Model

| member | source | states |
|---|---|---|
| Util.AbsInt | util.go:44-49 | the result is non-negative and is v or -v |
| Util.MaxInt | util.go:51-56 | the result is at least both arguments and is one of them |
| Util.MinInt | util.go:65-70 | the result is at most both arguments and is one of them |
| Util.MinPlusMax | util.go:51-70 | minInt(a,b) + maxInt(a,b) == a + b |
| Util.GoHalf | src/render.go:151-152 | Go's `/2` truncates toward zero: the remainder is 0 or 1 for a ≥ 0, and 0 or -1 below |
| Strs.TrimLeftSpace | src/params.go:130 | the result is a suffix of s that is empty or starts with a non-space |
| Strs.TrimLeftSpaceDropsOnlySpace | src/params.go:130 | every rune TrimLeftSpace removes is white space |
| Strs.TrimRightSpace | src/params.go:130 | the result is a prefix of s that is empty or ends with a non-space |
| Strs.TrimRightSpaceDropsOnlySpace | src/params.go:130 | every rune TrimRightSpace removes is white space |
| Strs.TrimSpace | src/text.go:10 | the result is empty or has no white space at either end |
| Strs.TrimSpaceIsInfix | src/text.go:10 | strings.TrimSpace returns a slice s[i..j] with only white space cut away on both sides |
| Strs.TrimSpaceEmptyIff | src/text.go:10-13 | TrimSpace(s) is "" exactly when s is all white space |
| Strs.TrimSpaceIdempotent | src/render.go:89 | trimming twice is trimming once |
| Strs.WordLen | src/text.go:18 | the leading word is space-free and ends at the end or at a space |
| Strs.FieldIsWord | src/text.go:18 | every field of strings.Fields is non-empty and space-free |
| Strs.FieldsEmptyIff | src/text.go:18-21 | Fields(s) is empty exactly when s is all white space |
| Strs.Fields | src/text.go:18 | strings.Fields: the maximal runs of non-space runes, in order (no contract of its own; FieldIsWord and FieldsEmptyIff state its properties) |
| Strs.Split | src/params.go:169 | strings.Split yields at least one piece and no piece holds the separator |
| Strs.SplitJoin | src/params.go:169 | joining the pieces with the separator gives back the input |
| Strs.TrimSuffix | src/text.go:63 | with the suffix present, result + suffix == s; otherwise s is unchanged |
| Strs.HasSuffix | src/text.go:24 | strings.HasSuffix: the suffix is no longer than s and equals its tail (a predicate, no contract) |
| Strs.EqualFold | src/params.go:97 | strings.EqualFold: equal length and equal runes after simple case folding (a predicate, no contract) |
| Params.Get | src/params.go:93 | a non-empty url.Values.Get result is the first value of an entry with exactly that key |
| Params.FoldGet | src/params.go:96-101 | the loop returns "" or the first value of an entry whose key matches up to case and has a value |
| Params.QueryGet | src/params.go:92-102 | a non-empty exact Get wins; any other non-empty result is the first value of an entry whose key equals the wanted one up to case |
| Params.QueryGetSingleMatch | src/params.go:92-102 | with one case-insensitive match, queryGet returns its first value, or "" if it has none |
| Params.QueryGetNoMatch | src/params.go:101 | with no case-insensitive match, queryGet returns "" |
| Params.GetOnlyMatch | src/params.go:93 | with one exact match, Get returns "" or that entry's first value |
| Params.FoldGetOnlyMatch | src/params.go:96-100 | with one case-insensitive match, the loop returns that entry's first value, or "" |
| Params.FoldGetNone | src/params.go:96-101 | with no case-insensitive match, the loop returns "" |
| Params.Atoi | src/params.go:109-112 | a parsed value lies in the int64 range |
| Params.AtoiSyntax | src/params.go:109-112 | strconv.Atoi accepts only an optional sign followed by at least one decimal digit |
| Params.AtoiValue | src/params.go:109-112 | a signed decimal parses to its value, negated after "-", and fails exactly when that value is outside int64 |
| Params.Digits | src/params.go:109 | decimal formatting yields a non-empty digit string |
| Params.DigitsValue | src/params.go:109 | the digits of n read back as n |
| Params.AtoiFormatInt | src/params.go:109 | parsing the decimal form of any int64 gives it back |
| Params.ParseInt | src/params.go:104-114 | missing or unparseable values give the fallback; otherwise the parsed value |
| Params.ParseFloat | src/params.go:116-126 | missing or unparseable values give the fallback; otherwise the parsed value |
| Params.FirstNonEmpty | src/params.go:128-135 | the result is "" or not blank |
| Params.FirstNonEmptyIsFirst | src/params.go:128-135 | the result is the first argument that is not blank, untrimmed |
| Params.FirstNonEmptyAllBlank | src/params.go:128-135 | the result is "" exactly when every argument is blank |
| Params.ItemAfter | src/params.go:169-175 | a non-empty ID is the trimmed segment following some segment equal to "item" |
| Params.ItemAfterFirst | src/params.go:169-174 | the ID is the trimmed segment after the first "item" that is not the last segment |
| Params.ItemAfterNone | src/params.go:169-175 | with no "item" segment followed by another, the ID is "" |
| Params.ItemAfterIsSegment | src/params.go:169-174 | the segment found holds no '/' and is trimmed |
| Params.ExtractItemIDFromURL | src/params.go:155-176 | the extracted ID is "" or a trimmed path segment: it holds no '/' and no outer white space |
| Params.MaxMargin | src/params.go:41-48 | the largest margin that leaves at least one interior pixel on both axes |
| Params.RawParams | src/params.go:10-27 | the raw record: the title is the TitleText lookup; the secondary text and the ID are "" or not blank |
| Params.ClampSize | src/params.go:29-37 | non-positive width, height and dpi become the defaults; nothing else changes |
| Params.ClampMargin | src/params.go:38-48 | the margin ends in [0, (min(w,h)-1)/2] and leaves an interior of at least 1 on both axes |
| Params.ClampPaddingAndFonts | src/params.go:49-57 | negative padding becomes 0; non-positive font sizes become the defaults |
| Params.ClampQrSize | src/params.go:59-70 | a non-positive QR size becomes the default, then at most the interior; it ends in [1, interior] |
| Params.ResolveTexts | src/params.go:72-87 | the secondary text moves to an empty title; an explicit ID wins over the URL's; an empty URL becomes " " |
| Params.DeriveParams | src/params.go:29-87 | every field follows from the raw one as the clamps say, and all clamp invariants hold together |
| Params.ParseLabelParams | src/params.go:9-90 | the parsed record is derived from the query and satisfies every clamp invariant |
| Text.ShrinkRunes | src/text.go:80-88 | the shrinking loop computes the longest-prefix specification |
| Text.TruncateWithEllipsis | src/text.go:68-89 | the method computes Truncated: "" below 1 pixel, "..." when only that fits, the text when it fits, else the shrunk prefix |
| Text.ShrinkToFit | src/text.go:80-88 | the loop's result ends in "..." after a prefix of the runes |
| Text.Truncated | src/text.go:68-89 | "" below one pixel; otherwise the text itself, or a prefix of it followed by "..." |
| Text.ShrinkToFitLongest | src/text.go:80-88 | the loop's result is a prefix plus "..." that fits, or bare "...", and no longer prefix plus "..." fits |
| Text.TruncatedFits | src/text.go:68-89 | when "..." fits, the result fits |
| Text.TruncatedIsLongestPrefix | src/text.go:76-88 | an overflowing text becomes its longest rune prefix that fits with "..." |
| Text.TruncatedIdempotent | src/text.go:68-89 | truncating the output again changes nothing |
| Text.PackFrom | src/text.go:41-55 | packing from word i stops at an index in [i, len(words)] |
| Text.Packed | src/text.go:39-56 | the stop index is within the word list |
| Text.BuildLine | src/text.go:39-56 | the loop computes the greedy packing specification |
| Text.PackFromShape | src/text.go:41-55 | packing either places every word, breaks before a word that does not fit, or cuts a lone first word with "..." |
| Text.PackedShape | src/text.go:39-56 | buildLine ends in one of those three shapes |
| Text.PackedProgress | src/text.go:39-56 | on a non-empty list at least one word is consumed, and no overflow means every word was placed |
| Text.JoinedEmpty | src/text.go:43-45 | words joined by spaces are "" only if every word is "" |
| Text.EnsureEllipsisAsWritten | src/text.go:58-66 | as written, a line that fits is returned unchanged, without an ellipsis |
| Text.EnsureEllipsis | src/text.go:58-66 | corrected: from one pixel on the result ends in "..." after a prefix of the line |
| Text.EnsureEllipsisMarks | src/text.go:58-66 | corrected: once "..." fits, the line ends in "...", fits, and keeps a prefix of the line |
| Text.WrapTwoLines | src/text.go:9-37 | wrapTwoLines with ensureEllipsis as written: never more than two lines |
| Text.WrapTwoLinesWith | src/text.go:9-37 | the shared shape of the as-written and the corrected wrapping: never more than two lines |
| Text.WrapTwoLinesIntended | src/text.go:9-37 | wrapTwoLines with the corrected ensureEllipsis: never more than two lines |
| Text.WrapTwoLinesEmptyIff | src/text.go:10-21 | for either marking, no lines exactly when the text is blank or the width is below 1 |
| Text.PackedFieldsFit | src/text.go:39-56 | a line built from non-empty words is non-empty and fits |
| Text.SecondLineFits | src/text.go:28-34 | the second line is non-empty and fits, so is what either marking makes of it, and ensureEllipsis as written returns it unchanged |
| Text.WrapTwoLinesFit | src/text.go:9-37 | as written and corrected: when "..." fits, every line is non-empty and fits the width |
| Text.WrapTwoLinesKeepsSecondLine | src/text.go:28-34 | as written, once "..." fits, the second line is exactly the one buildLine returned: it is never marked |
| Text.WrapTwoLinesMarksDroppedWords | src/text.go:28-34 | corrected: when words are left over after the second line, it ends in "..." |
| Text.EnsureEllipsisLeavesFittingLine | src/text.go:32-33 | for "ab cd ef" at 4 pixels, the as-written second line "cd" gets no ellipsis; the corrected one is "c..." |
| Text.WrapTwoLinesDropsUnmarked | src/text.go:9-37 | "ab cd ef" at 4 pixels wraps to ["ab", "cd"] as written, dropping "ef" unmarked, and to ["ab", "c..."] corrected |
| Fonts.TextBlockHeight | fonts.go:66-71 | 0 for no lines; height × lines otherwise; positive exactly when there are lines and the height is positive |
| Fonts.AlignedX | fonts.go:46-54 | left starts at x; right ends at x + maxWidth; centred leaves side gaps that differ by at most one |
| Fonts.Drawn | fonts.go:46-61 | the DrawString calls for the first n lines: at most one per line |
| Fonts.DrawTextLines | fonts.go:33-64 | returns textBlockHeight(face, len(lines)); draws the lines that fit, after raising the width to at least 1 |
| Fonts.DrawnPlacements | fonts.go:46-61 | every drawn line has its own text, its aligned x and its baseline topY + ascent + i·height, fits above the bottom, and lines come in order |
| Fonts.DrawnIffVisible | fonts.go:55-58 | line i is drawn exactly when baseline + descent is within the bottom bound, so lines are skipped whole |
| Render.ValidateDims | src/render.go:17-28 | fails with "invalid label size" exactly when a size or an interior is below 1; otherwise yields the interior |
| Render.SplitColumns | src/render.go:30-50 | single column exactly when interior < 2; otherwise gap ≥ 0, widths sum to the interior, right − left ∈ {0,1}, and the right column ends at the interior's edge |
| Render.DrawTitle | src/render.go:82-87 | the title is wrapped into the left column and the cursor moves down by its block height |
| Render.DrawSecondary | src/render.go:89-97 | the secondary line is trimmed and truncated, with padding above it only when the cursor has moved |
| Render.DrawHeader | src/render.go:82-101 | HeaderLaidOut: the wrapped title, the trimmed and truncated secondary line, both paddings in the cursor formula, and the placements of both; margin ≤ secondary top ≤ cursor when padding ≥ 0 |
| Render.AvailableHeight | src/render.go:108-111 | at least 1, and the space under the cursor when that is positive |
| Render.QrSide | src/render.go:112-117 | at most the column width and the available height; a non-positive request takes the smaller of the two |
| Render.QrSquare | src/render.go:108-124 | a QR square exists exactly when its side is positive; it sits at the cursor in the left column |
| Render.QrSquareInside | src/render.go:108-124 | the QR square lies inside the left column and above the bottom margin when the cursor is above it |
| Render.IdGap | src/render.go:132 | max(2, padding/2) |
| Render.DrawIdBlock | src/render.go:126-139 | IdBlockLaidOut: no block for a blank ID; otherwise the value is trimmed and truncated, block height = label + gap + value, and the caption and value are placed right-aligned and bottom-anchored; the height is 0 exactly for a blank ID |
| Render.IconArea | src/render.go:141-145 | from the margin down to the bottom margin, or to the ID block minus padding |
| Render.IconScale | src/render.go:149 | int(float64(n)·0.65) is the s with 20s ≤ 13n < 20(s+1) |
| Render.IconSquare | src/render.go:146-155 | an icon exactly when the area and the column are positive and the scaled size is ≥ 12; it is centred in the column and inside the area |
| Render.RenderLabel | src/render.go:16-158 | fails with "invalid label size" exactly on invalid dimensions; otherwise the columns, the whole header (HeaderLaidOut), cursor ≥ margin, the QR square, the whole ID block (IdBlockLaidOut) and the icon square are as the steps above compute them |
| Png.BE32 | src/png.go:54-55 | a u32 is four bytes, big-endian |
| Png.DecodeEncodeBE32 | src/png.go:38 | decoding the encoding gives the value back |
| Png.DecodeBE32 | src/png.go:38 | binary.BigEndian.Uint32 (no contract of its own; DecodeEncodeBE32 and EncodeDecodeBE32 state that it inverts BE32) |
| Png.EncodeDecodeBE32 | src/png.go:38 | encoding the decoded value gives the four bytes back |
| Png.ToU32 | src/png.go:54 | uint32(ppm) keeps in-range values |
| Png.CrcUpdateAppend | src/png.go:68 | the CRC of a + b continues the CRC of a with b |
| Png.CrcShiftsOfA | src/png.go:68 | four steps of the reflected polynomial on the register for "a" |
| Png.CrcCheckValue | src/png.go:68 | CRC-32 of "a" is 0xE8B7BE43, the standard value |
| Png.CrcShiftsSplit | src/png.go:68 | m + n bit steps are m steps and then n |
| Png.Crc32 | src/png.go:68 | crc32.ChecksumIEEE (no contract of its own; CrcCheckValue and CrcUpdateAppend state its properties) |
| Png.PhysPayload | src/png.go:53-56 | the payload is nine bytes |
| Png.PhysChunk | src/png.go:58-71 | the chunk is 21 bytes |
| Png.AddPhys | src/png.go:26-85 | fails exactly on a short buffer, a bad signature, a first chunk that is not IHDR, or an overlong IHDR, each with its own message ("invalid png data", "invalid png signature", "missing IHDR chunk", "invalid IHDR length"); "invalid png header" never occurs; ppm ≤ 0 returns the input |
| Png.AddPhysSplices | src/png.go:73-84 | the output is 21 bytes longer: the input up to the IHDR end, the chunk, the rest; removing the chunk gives the input |
| Png.AddPhysKeepsHeader | src/png.go:27-46 | the output keeps the signature and the IHDR chunk, and passes the checks again |
| Png.ChunkAt | src/png.go:38-43 | a chunk read from a stream has a 4-byte type and the declared length of data |
| Png.AddPhysKeepsIhdrChunk | src/png.go:73-74 | the IHDR chunk reads the same from the output and ends where pHYs begins |
| Png.ChunkAtNine | src/png.go:58-71 | a framed nine-byte chunk reads back as its length, type, data and CRC |
| Png.PhysPayloadFields | src/png.go:53-56 | the payload holds ppm twice and the unit byte 1 |
| Png.AddPhysRoundTrip | src/png.go:53-80 | the chunk read at the IHDR end is pHYs, nine bytes, x = y = ppm, unit metre, and its CRC matches |
| Png.PutUint32 | src/png.go:54-55 | the four bytes at i become the big-endian value; the rest of the buffer is unchanged |
| Png.Round | src/png.go:48 | math.Round: the nearest integer, halves away from zero |
| Png.Ppm | src/png.go:48 | dots per inch to pixels per metre (no contract of its own; PpmPositiveIff states when it is positive) |
| Png.PpmPositiveIff | src/png.go:48-51 | the resolution is positive exactly from 0.0127 dpi on |
| Png.AddPhysChunk | src/png.go:26-85 | the method computes AddPhys with ppm = round(dpi / 0.0254) |
| Png.EncodePngWithDpi | src/png.go:15-24 | dpi ≤ 0 returns the encoding untouched; otherwise the pHYs splice |
| Icon.FillRect | src/icon.go:80-89 | exactly the pixels in the rectangle clipped to the grid take the colour; nothing else changes; w ≤ 0 or h ≤ 0 changes nothing |
| Icon.DrawThickPoint | src/icon.go:75-78 | exactly the thickness-sized square with corner (x − t/2, y − t/2) turns black; nothing else changes |
| Icon.CoveredIff | src/icon.go:59 | a pixel is covered by a path exactly when it lies in the pen square of one of its points |
| Icon.CoveredExtend | src/icon.go:59 | one more point adds exactly its pen square |
| Icon.Dir | src/icon.go:48-55 | the step sign is 1 toward a larger endpoint and -1 otherwise |
| Icon.StepsMonotone | src/icon.go:63-71 | along steps in fixed directions, each coordinate only moves that way |
| Icon.LineInBox | src/icon.go:45-73 | a drawLine path never leaves the rectangle spanned by its two ends |
| Icon.BresenhamErrorClosed | src/icon.go:56-71 | the error term after a x steps and b y steps is dx·(1+b) + dy·(1+a) |
| Icon.BresenhamErrorY | src/icon.go:68-70 | a y step adds dx to the error term whatever x steps came before |
| Icon.XDone | src/icon.go:63-67 | once x has made all its steps and y has not, the error term forbids another x step |
| Icon.YDone | src/icon.go:68-71 | once y has made all its steps and x has not, the error term forbids another y step |
| Icon.NoOvershoot | src/icon.go:63-71 | once an axis has reached its endpoint, the error term stops further steps on that axis |
| Icon.BresenhamStep | src/icon.go:63-71 | each step moves at least one axis, only an axis not yet done, and keeps the error term's closed form |
| Icon.DrawLine | src/icon.go:45-73 | the path starts at (x0,y0) and ends at (x1,y1), has at most \|dx\|+\|dy\|+1 points, every step is a unit move toward the end, and exactly the pens along it turn black |
| Icon.Thickness | src/icon.go:13-20 | w/14 clamped to [2, 5] |
| Icon.BoxSegments | src/icon.go:21-42 | nine segments |
| Icon.FrontFaceCloses | src/icon.go:32-35 | the four front edges form a closed rectangle |
| Icon.DrawStroke | src/icon.go:32-42 | one line is drawn, its path is a full drawLine path (IsLine: endpoints, unit steps toward the end, length) for that segment, recorded after the earlier ones |
| Icon.Accumulated | src/icon.go:32-42 | the pixels covered by all strokes are those covered before plus the new stroke's |
| Icon.DrawOpenBoxIcon | src/icon.go:9-43 | nothing changes for w ≤ 0 or h ≤ 0; otherwise nine drawLine paths, each an IsLine path along its box segment, and exactly their pixels turn black |

## Left out

- HTTP handling, process bootstrap, logging and environment access are left out. This includes `envString`, `envInt` and `envDuration` (util.go:10-42), which read the OS environment and are request or process plumbing.
- Font parsing and glyph rasterisation are left out: `newFontFace` and its errors, `MeasureString` and `DrawString`. Text width is an abstract `measure` function, and metrics are abstract non-negative pixel counts. A drawn line is recorded as a placement, not as painted pixels.
- QR generation is left out: `qrcode.New`, its error and `qr.Image` (src/render.go:103-106, 119). Only the size and place of the QR square are modelled.
- `png.Encode` is left out. The splice works on any byte sequence, and `Png.EncodePngWithDpi` takes the encoded bytes as input.
- `url.Parse` and `strconv.ParseFloat` are parameters of the model (`urlPath`, `parseFloat`). Both are foreign parsers.
- Params.ParseFloat: the parameter `parseFloat` yields a real or nothing, so NaN and ±Inf are never parsed. Go's `strconv.ParseFloat` accepts "NaN" and "Inf", and NaN passes the `<= 0` clamps (src/params.go:35-37, 52-57) unchanged. The positivity of dpi and of the font sizes in `Params.Clamped`, which `Params.DeriveParams` and `Params.ParseLabelParams` promise, relies on this exclusion.
- Render.RenderLabel: does not paint the canvas. It returns the layout (columns, header, QR square, ID block, icon square). The icon's pixels are drawn separately by `Icon.DrawOpenBoxIcon`, and the white background fill is not modelled.
- The ID font sizes (`maxFloat`, src/render.go:60-61) are left out, because faces are inputs of `Render.RenderLabel`.
- Icon.BoxSegments: the eight coordinates computed as `int(float64(w)*0.18)` and so on (src/icon.go:21-28, 30) are inputs in a `Box`. Only `flapPeakX = x + w/2` is computed.
- Render.IconScale: is the exact value 13n/20 rounded down. It agrees with Go's `int(float64(n)*0.65)` when the double product rounds to the same integer, which holds for 0 ≤ n < 2^40 (far beyond any canvas the service allocates). The floating-point product itself is not modelled.
- Png.Round: uses exact real arithmetic for `math.Round(dpi/0.0254)`. It does not model binary floating-point rounding of the division.
- Params.QueryGet: Go map iteration order is unspecified. So the result is pinned down only when the exact key has a value or at most one key matches up to case.
- Strs.EqualFold: case-folds ASCII plus the Kelvin sign and the long s. It is exact when one side is ASCII, which every key the service looks up is. Other Unicode simple folds are not modelled.
- Machine-integer overflow is not modelled (integers are unbounded), including `absInt` of the smallest int. `uint32(ppm)` is modelled as `ppm mod 2^32` (`Png.ToU32`).
- Text is a sequence of Unicode code points. Invalid UTF-8 in `[]rune(text)` is not modelled.
- Icon.DrawLine: the sequence of points it paints is returned as a ghost value. The source keeps no such record; it exists only to state which pixels turn black.
- The root-level constants.go is an older revision and is not part of this model; the defaults come from src/constants.go.

## Findings

| source | as written | input that shows it | evidently intended | confidence | as-written member | corrected member |
|---|---|---|---|---|---|---|
| src/text.go:58-66 | `ensureEllipsis` hands a second line that does not end in "..." to `truncateWithEllipsis`. That function returns any text that fits unchanged, and the line `buildLine` returns always fits once "..." does, so `wrapTwoLines` never marks a second line after which words were dropped. | "ab cd ef" at width 4, with one pixel per rune: line 1 is "ab", line 2 is "cd", "ef" is dropped, and "cd" is returned without "..." | the second line ends in "..." whenever words were dropped or it overflowed ("c..." here) | medium, not executed | Text.EnsureEllipsisAsWritten, Text.WrapTwoLines, Text.WrapTwoLinesKeepsSecondLine, Text.EnsureEllipsisLeavesFittingLine, Text.WrapTwoLinesDropsUnmarked | Text.EnsureEllipsis, Text.EnsureEllipsisMarks, Text.WrapTwoLinesIntended, Text.WrapTwoLinesMarksDroppedWords |

`Render.RenderLabel` lays out the title with `Text.WrapTwoLines`, as the code does, so the layout keeps this behaviour; `Text.WrapTwoLinesIntended` is the corrected wrapping, and `Text.WrapTwoLinesFit` and `Text.WrapTwoLinesEmptyIff` hold of both.
