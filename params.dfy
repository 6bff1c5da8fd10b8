/** Parameter derivation (src/params.go, with the record and defaults of src/constants.go):
    raw query values become one clamped `LabelParams` record. */
module Params {
  import opened Wrappers
  import opened Util
  import opened Strs

  const DefaultWidth: int := 320
  const DefaultHeight: int := 240
  const DefaultDpi: real := 203.0
  const DefaultMargin: int := 8
  const DefaultPadding: int := 6
  const DefaultQrSize: int := 170
  const DefaultTitleFontSize: real := 28.0
  const DefaultDescFontSize: real := 16.0

  /** labelParams; the float64 fields are reals (NaN and rounding are not modelled). */
  datatype LabelParams = LabelParams(
    width: int,
    height: int,
    dpi: real,
    margin: int,
    padding: int,
    qrSize: int,
    url: string,
    titleText: string,
    secondaryText: string,
    idText: string,
    titleFontSize: real,
    descriptionFontSize: real)

  /** One key of url.Values with its values. A Values list stands for the Go map; its
      order is the order in which `range` happens to visit the keys. */
  datatype Entry = Entry(key: string, vals: seq<string>)
  type Values = seq<Entry>

  /** url.Values.Get: the first value stored under exactly `key`, or "". */
  function Get(values: Values, key: string): (r: string)
    ensures r != "" ==> exists k :: 0 <= k < |values| && values[k].key == key &&
                                    |values[k].vals| > 0 && r == values[k].vals[0]
  {
    if |values| == 0 then ""
    else if values[0].key == key then (if |values[0].vals| > 0 then values[0].vals[0] else "")
    else Get(values[1..], key)
  }

  /** The loop of queryGet: the first value of the first key, in iteration order, that
      equals `key` up to case and has a value. */
  function FoldGet(values: Values, key: string): (r: string)
    ensures r == "" || exists k :: 0 <= k < |values| && EqualFold(values[k].key, key) &&
                                   |values[k].vals| > 0 && r == values[k].vals[0]
  {
    if |values| == 0 then ""
    else if EqualFold(values[0].key, key) && |values[0].vals| > 0 then values[0].vals[0]
    else FoldGet(values[1..], key)
  }

  /** queryGet: the exact key's first value when it is not "", else a case-insensitive match. */
  function QueryGet(values: Values, key: string): (r: string)
    ensures Get(values, key) != "" ==> r == Get(values, key)
    ensures r == "" || exists k :: 0 <= k < |values| && EqualFold(values[k].key, key) &&
                                   |values[k].vals| > 0 && r == values[k].vals[0]
  {
    var exact := Get(values, key);
    if exact != "" then exact else FoldGet(values, key)
  }

  /** When exactly one key matches up to case, queryGet's answer does not depend on the
      map's iteration order: it is that key's first value, or "" if it has none. */
  lemma {:induction false} QueryGetSingleMatch(values: Values, key: string, k: nat)
    requires k < |values| && EqualFold(values[k].key, key)
    requires forall j :: 0 <= j < |values| && j != k ==> !EqualFold(values[j].key, key)
    ensures QueryGet(values, key) == if |values[k].vals| > 0 then values[k].vals[0] else ""
  {
    GetOnlyMatch(values, key, k);
    FoldGetOnlyMatch(values, key, k);
  }

  /** When no key matches up to case, queryGet yields "". */
  lemma {:induction false} QueryGetNoMatch(values: Values, key: string)
    requires forall j :: 0 <= j < |values| ==> !EqualFold(values[j].key, key)
    ensures QueryGet(values, key) == ""
  {
    if |values| > 0 {
      QueryGetNoMatch(values[1..], key);
      assert EqualFold(key, key);
    }
  }

  lemma {:induction false} GetOnlyMatch(values: Values, key: string, k: nat)
    requires k < |values| && EqualFold(values[k].key, key)
    requires forall j :: 0 <= j < |values| && j != k ==> !EqualFold(values[j].key, key)
    ensures Get(values, key) == "" || (|values[k].vals| > 0 && Get(values, key) == values[k].vals[0])
  {
    assert EqualFold(key, key);
    if k > 0 {
      GetOnlyMatch(values[1..], key, k - 1);
    }
  }

  lemma {:induction false} FoldGetOnlyMatch(values: Values, key: string, k: nat)
    requires k < |values| && EqualFold(values[k].key, key)
    requires forall j :: 0 <= j < |values| && j != k ==> !EqualFold(values[j].key, key)
    ensures FoldGet(values, key) == if |values[k].vals| > 0 then values[k].vals[0] else ""
  {
    if k > 0 {
      FoldGetOnlyMatch(values[1..], key, k - 1);
    } else {
      FoldGetNone(values[1..], key);
    }
  }

  lemma {:induction false} FoldGetNone(values: Values, key: string)
    requires forall j :: 0 <= j < |values| ==> !EqualFold(values[j].key, key)
    ensures FoldGet(values, key) == ""
  {
    if |values| > 0 {
      FoldGetNone(values[1..], key);
    }
  }

  // ---------------------------------------------------------------------------------
  // strconv.Atoi

  const MinInt64: int := -0x8000_0000_0000_0000
  const MaxInt64: int := 0x7FFF_FFFF_FFFF_FFFF

  predicate IsDigit(c: char) { '0' <= c <= '9' }

  predicate AllDigits(s: string) { forall i :: 0 <= i < |s| ==> IsDigit(s[i]) }

  /** The value of a string of decimal digits, most significant first. */
  function DecimalValue(s: string): (v: nat)
    requires AllDigits(s)
  {
    if |s| == 0 then 0
    else DecimalValue(s[..|s| - 1]) * 10 + (s[|s| - 1] as int - '0' as int)
  }

  /** strconv.Atoi on a 64-bit platform: an optional sign and at least one decimal digit,
      in the range of int64; anything else is an error (None). */
  function Atoi(s: string): (r: Option<int>)
    ensures r.Some? ==> MinInt64 <= r.value <= MaxInt64
    ensures r.Some? ==> s != "" && (IsDigit(s[0]) || s[0] == '-' || s[0] == '+')
  {
    if s == "" then None
    else
      var neg := s[0] == '-';
      var digits := if s[0] == '-' || s[0] == '+' then s[1..] else s;
      if digits == "" || !AllDigits(digits) then None
      else
        var v: int := if neg then -(DecimalValue(digits) as int) else DecimalValue(digits);
        if v < MinInt64 || v > MaxInt64 then None else Some(v)
  }

  /** s is an optional sign followed by decimal digits only, the digits starting at i
      (1 exactly when there is a sign). */
  predicate SignedDecimal(s: string, i: nat)
  {
    i <= 1 && i < |s| && (i == 1 <==> s[0] == '-' || s[0] == '+') && AllDigits(s[i..])
  }

  /** Atoi accepts nothing but an optional sign followed by at least one digit. */
  lemma AtoiSyntax(s: string)
    ensures Atoi(s).Some? ==> exists i :: SignedDecimal(s, i)
  {
    if Atoi(s).Some? {
      var i := if s[0] == '-' || s[0] == '+' then 1 else 0;
      assert s[i..] == if i == 1 then s[1..] else s;
      assert SignedDecimal(s, i);
    }
  }

  /** Atoi reads a signed decimal as its value, negated after "-", and fails exactly when
      that value is outside int64. */
  lemma AtoiValue(s: string, i: nat)
    requires SignedDecimal(s, i)
    ensures var v: int := if s[0] == '-' then -(DecimalValue(s[i..]) as int) else DecimalValue(s[i..]);
            Atoi(s) == if MinInt64 <= v <= MaxInt64 then Some(v) else None
  {
    assert s[i..] == if i == 1 then s[1..] else s;
  }

  /** The decimal digits of n, most significant first (strconv.Itoa on a natural number). */
  function Digits(n: nat): (s: string)
    ensures s != "" && AllDigits(s)
  {
    var d := ['0' + (n % 10) as char];
    if n < 10 then d else Digits(n / 10) + d
  }

  /** strconv.Itoa. */
  function FormatInt(n: int): string
  {
    if n < 0 then "-" + Digits(-n) else Digits(n)
  }

  lemma {:induction false} DigitsValue(n: nat)
    ensures DecimalValue(Digits(n)) == n
  {
    var s := Digits(n);
    if n >= 10 {
      DigitsValue(n / 10);
      assert s[..|s| - 1] == Digits(n / 10);
    }
  }

  /** Atoi reads back every int64 that Itoa writes. */
  lemma AtoiFormatInt(n: int)
    requires MinInt64 <= n <= MaxInt64
    ensures Atoi(FormatInt(n)) == Some(n)
  {
    if n < 0 {
      DigitsValue(-n);
      assert FormatInt(n)[1..] == Digits(-n);
    } else {
      DigitsValue(n);
    }
  }

  /** parseInt: the fallback for a missing or unparseable value, else the parsed value. */
  function ParseInt(values: Values, key: string, fallback: int): (r: int)
    ensures QueryGet(values, key) == "" ==> r == fallback
    ensures Atoi(QueryGet(values, key)).Some? ==> r == Atoi(QueryGet(values, key)).value
    ensures Atoi(QueryGet(values, key)).None? ==> r == fallback
  {
    var value := QueryGet(values, key);
    if value == "" then fallback
    else match Atoi(value)
      case None => fallback
      case Some(v) => v
  }

  /** parseFloat, with strconv.ParseFloat as the parameter `parseFloat`. */
  function ParseFloat(values: Values, key: string, fallback: real,
                      parseFloat: string -> Option<real>): (r: real)
    ensures QueryGet(values, key) == "" ==> r == fallback
    ensures QueryGet(values, key) != "" && parseFloat(QueryGet(values, key)).None? ==> r == fallback
    ensures QueryGet(values, key) != "" && parseFloat(QueryGet(values, key)).Some? ==>
              r == parseFloat(QueryGet(values, key)).value
  {
    var value := QueryGet(values, key);
    if value == "" then fallback
    else match parseFloat(value)
      case None => fallback
      case Some(v) => v
  }

  // ---------------------------------------------------------------------------------
  // Text fields

  /** firstNonEmpty: the first argument that is not blank, untrimmed; else "". */
  function FirstNonEmpty(vs: seq<string>): (r: string)
    ensures r == "" || TrimSpace(r) != ""
  {
    if |vs| == 0 then ""
    else if TrimSpace(vs[0]) != "" then vs[0]
    else FirstNonEmpty(vs[1..])
  }

  /** FirstNonEmpty returns the argument at the first non-blank position. */
  lemma {:induction false} FirstNonEmptyIsFirst(vs: seq<string>, k: nat)
    requires k < |vs| && TrimSpace(vs[k]) != ""
    requires forall j :: 0 <= j < k ==> TrimSpace(vs[j]) == ""
    ensures FirstNonEmpty(vs) == vs[k]
  {
    if k > 0 {
      assert TrimSpace(vs[0]) == "";
      FirstNonEmptyIsFirst(vs[1..], k - 1);
    }
  }

  /** FirstNonEmpty is "" exactly when every argument is blank. */
  lemma {:induction false} FirstNonEmptyAllBlank(vs: seq<string>)
    ensures FirstNonEmpty(vs) == "" <==> forall j :: 0 <= j < |vs| ==> TrimSpace(vs[j]) == ""
  {
    if |vs| > 0 {
      FirstNonEmptyAllBlank(vs[1..]);
      if TrimSpace(vs[0]) == "" {
        assert forall j :: 1 <= j < |vs| ==> vs[j] == vs[1..][j - 1];
      }
    }
  }

  /** The loop of extractItemIDFromURL over the path's pieces: the trimmed piece after
      the first piece that is exactly "item" and is not the last. */
  function ItemAfter(parts: seq<string>): (r: string)
    ensures r != "" ==> exists i :: 0 <= i < |parts| - 1 && parts[i] == "item" && r == TrimSpace(parts[i + 1])
  {
    if |parts| < 2 then ""
    else if parts[0] == "item" then TrimSpace(parts[1])
    else ItemAfter(parts[1..])
  }

  /** ItemAfter picks the piece after the first "item" that has a successor. */
  lemma {:induction false} ItemAfterFirst(parts: seq<string>, i: nat)
    requires i + 1 < |parts| && parts[i] == "item"
    requires forall j :: 0 <= j < i ==> parts[j] != "item"
    ensures ItemAfter(parts) == TrimSpace(parts[i + 1])
  {
    if i > 0 {
      ItemAfterFirst(parts[1..], i - 1);
    }
  }

  /** Without an "item" piece that has a successor, ItemAfter is "". */
  lemma {:induction false} ItemAfterNone(parts: seq<string>)
    requires forall j :: 0 <= j < |parts| - 1 ==> parts[j] != "item"
    ensures ItemAfter(parts) == ""
  {
    if |parts| >= 2 {
      ItemAfterNone(parts[1..]);
    }
  }

  /** extractItemIDFromURL, with url.Parse reduced to the parameter `urlPath`, which yields
      the parsed URL's path or None when the URL does not parse. */
  function ExtractItemIDFromURL(raw: string, urlPath: string -> Option<string>): (r: string)
    // the extracted ID is a trimmed piece of the path: no '/' and no outer white space
    ensures '/' !in r && TrimSpace(r) == r
  {
    var t := TrimSpace(raw);
    if t == "" then ""
    else match urlPath(t)
      case None => ""
      case Some(path) =>
        if path == "" then ""
        else
          var parts := Split(path, '/');
          ItemAfterIsSegment(parts);
          ItemAfter(parts)
  }

  /** The piece ItemAfter picks out of a split path holds no '/' and is already trimmed. */
  lemma {:induction false} ItemAfterIsSegment(parts: seq<string>)
    requires forall k :: 0 <= k < |parts| ==> '/' !in parts[k]
    ensures '/' !in ItemAfter(parts) && TrimSpace(ItemAfter(parts)) == ItemAfter(parts)
  {
    if |parts| >= 2 {
      if parts[0] == "item" {
        TrimSpaceIsInfix(parts[1]);
        TrimSpaceIdempotent(parts[1]);
      } else {
        ItemAfterIsSegment(parts[1..]);
      }
    }
  }

  // ---------------------------------------------------------------------------------
  // The derivation

  /** The largest margin that leaves at least one pixel of interior on both axes. */
  function MaxMargin(width: int, height: int): (m: int)
    requires width > 0 && height > 0
    ensures m >= 0 && width - 2 * m >= 1 && height - 2 * m >= 1
    ensures width - 2 * (m + 1) < 1 || height - 2 * (m + 1) < 1
  {
    (MinInt(width, height) - 1) / 2
  }

  /** The record as first read from the query (src/params.go:10-27), before any clamping. */
  function RawParams(values: Values, parseFloat: string -> Option<real>): (raw: LabelParams)
    ensures raw.titleText == "" || raw.titleText == QueryGet(values, "TitleText")
    ensures raw.secondaryText == "" || TrimSpace(raw.secondaryText) != ""
    ensures raw.idText == "" || TrimSpace(raw.idText) != ""
  {
    LabelParams(
      ParseInt(values, "Width", DefaultWidth),
      ParseInt(values, "Height", DefaultHeight),
      ParseFloat(values, "Dpi", DefaultDpi, parseFloat),
      ParseInt(values, "Margin", DefaultMargin),
      ParseInt(values, "ComponentPadding", DefaultPadding),
      ParseInt(values, "QrSize", DefaultQrSize),
      QueryGet(values, "URL"),
      QueryGet(values, "TitleText"),
      FirstNonEmpty([QueryGet(values, "DescriptionText"),
                     QueryGet(values, "AdditionalInformation"),
                     QueryGet(values, "AdditiontalInformation")]),
      FirstNonEmpty([QueryGet(values, "ID"), QueryGet(values, "Id")]),
      ParseFloat(values, "TitleFontSize", DefaultTitleFontSize, parseFloat),
      ParseFloat(values, "DescriptionFontSize", DefaultDescFontSize, parseFloat))
  }

  /** The extent left between the two margins of one axis. */
  function Interior(size: int, margin: int): int
  {
    size - 2 * margin
  }

  // Frame predicates: two records agree on a group of fields.
  predicate SameSize(a: LabelParams, b: LabelParams)
  {
    a.width == b.width && a.height == b.height && a.dpi == b.dpi
  }

  predicate SameSpacing(a: LabelParams, b: LabelParams)
  {
    a.margin == b.margin && a.padding == b.padding && a.qrSize == b.qrSize
  }

  predicate SameFonts(a: LabelParams, b: LabelParams)
  {
    a.titleFontSize == b.titleFontSize && a.descriptionFontSize == b.descriptionFontSize
  }

  predicate SameTexts(a: LabelParams, b: LabelParams)
  {
    a.url == b.url && a.titleText == b.titleText && a.secondaryText == b.secondaryText && a.idText == b.idText
  }

  /** The clamps of src/params.go:29-37: a non-positive width, height or DPI falls back to
      its default. */
  method ClampSize(p0: LabelParams) returns (p: LabelParams)
    ensures p.width == (if p0.width > 0 then p0.width else DefaultWidth)
    ensures p.height == (if p0.height > 0 then p0.height else DefaultHeight)
    ensures p.dpi == (if p0.dpi > 0.0 then p0.dpi else DefaultDpi)
    ensures SameSpacing(p, p0) && SameFonts(p, p0) && SameTexts(p, p0)
  {
    p := p0;
    if p.width <= 0 {
      p := p.(width := DefaultWidth);
    }
    if p.height <= 0 {
      p := p.(height := DefaultHeight);
    }
    if p.dpi <= 0.0 {
      p := p.(dpi := DefaultDpi);
    }
  }

  /** The clamp of src/params.go:38-48: a negative margin becomes 0 and a margin that would
      leave no interior becomes the largest one that does. */
  method ClampMargin(p0: LabelParams) returns (p: LabelParams)
    requires p0.width > 0 && p0.height > 0
    ensures p.margin == MinInt(MaxInt(p0.margin, 0), MaxMargin(p0.width, p0.height))
    ensures 0 <= p.margin <= (MinInt(p.width, p.height) - 1) / 2
    ensures Interior(p.width, p.margin) >= 1 && Interior(p.height, p.margin) >= 1
    ensures SameSize(p, p0) && p.padding == p0.padding && p.qrSize == p0.qrSize
    ensures SameFonts(p, p0) && SameTexts(p, p0)
  {
    p := p0;
    if p.margin < 0 {
      p := p.(margin := 0);
    }
    var minDim := MinInt(p.width, p.height);
    var maxMargin := (minDim - 1) / 2;  // minDim >= 1: Go's and Dafny's division agree
    if maxMargin < 0 {
      maxMargin := 0;
    }
    if p.margin > maxMargin {
      p := p.(margin := maxMargin);
    }
  }

  /** The clamps of src/params.go:49-57: a negative padding becomes 0 and a non-positive
      font size falls back to its default. */
  method ClampPaddingAndFonts(p0: LabelParams) returns (p: LabelParams)
    ensures p.padding == MaxInt(p0.padding, 0)
    ensures p.titleFontSize == (if p0.titleFontSize > 0.0 then p0.titleFontSize else DefaultTitleFontSize)
    ensures p.descriptionFontSize ==
              (if p0.descriptionFontSize > 0.0 then p0.descriptionFontSize else DefaultDescFontSize)
    ensures SameSize(p, p0) && p.margin == p0.margin && p.qrSize == p0.qrSize && SameTexts(p, p0)
  {
    p := p0;
    if p.padding < 0 {
      p := p.(padding := 0);
    }
    if p.titleFontSize <= 0.0 {
      p := p.(titleFontSize := DefaultTitleFontSize);
    }
    if p.descriptionFontSize <= 0.0 {
      p := p.(descriptionFontSize := DefaultDescFontSize);
    }
  }

  /** The clamp of src/params.go:59-70: a non-positive QR size becomes the default, and the
      result is at most the interior left by the margin on either axis. */
  method ClampQrSize(p0: LabelParams) returns (p: LabelParams)
    requires Interior(p0.width, p0.margin) >= 1 && Interior(p0.height, p0.margin) >= 1
    ensures p.qrSize == MinInt(if p0.qrSize > 0 then p0.qrSize else DefaultQrSize,
                               MinInt(Interior(p0.width, p0.margin), Interior(p0.height, p0.margin)))
    ensures 1 <= p.qrSize <= MinInt(Interior(p.width, p.margin), Interior(p.height, p.margin))
    ensures SameSize(p, p0) && p.margin == p0.margin && p.padding == p0.padding
    ensures SameFonts(p, p0) && SameTexts(p, p0)
  {
    p := p0;
    if p.qrSize <= 0 {
      p := p.(qrSize := DefaultQrSize);
    }
    var maxQR := MinInt(Interior(p.width, p.margin), Interior(p.height, p.margin));
    if maxQR < 1 {
      maxQR := 1;
    }
    if p.qrSize > maxQR {
      p := p.(qrSize := maxQR);
    }
  }

  /** The text steps of src/params.go:72-87: the secondary text moves into an empty title,
      an ID is taken from the URL only when none was given, and an empty URL becomes " ". */
  method ResolveTexts(p0: LabelParams, urlPath: string -> Option<string>) returns (p: LabelParams)
    ensures if p0.titleText == "" && p0.secondaryText != ""
            then p.titleText == p0.secondaryText && p.secondaryText == ""
            else p.titleText == p0.titleText && p.secondaryText == p0.secondaryText
    ensures p.titleText == "" ==> p.secondaryText == ""
    ensures p.idText == if p0.idText == "" then ExtractItemIDFromURL(p0.url, urlPath) else p0.idText
    ensures p.url == if p0.url == "" then " " else p0.url
    ensures p.url != ""
    ensures SameSize(p, p0) && SameSpacing(p, p0) && SameFonts(p, p0)
  {
    p := p0;
    if p.titleText == "" && p.secondaryText != "" {
      p := p.(titleText := p.secondaryText, secondaryText := "");
    }
    if p.idText == "" {
      var extractedID := ExtractItemIDFromURL(p.url, urlPath);
      if extractedID != "" {
        p := p.(idText := extractedID);
      }
    }
    if p.url == "" {
      p := p.(url := " ");
    }
  }

  /** What the derivation promises every later stage: positive sizes, a margin that leaves
      an interior on both axes, a QR size that fits that interior, no secondary text without
      a title, and a URL that is never empty. */
  predicate Clamped(p: LabelParams)
  {
    && p.width > 0 && p.height > 0 && p.dpi > 0.0 && p.padding >= 0
    && p.titleFontSize > 0.0 && p.descriptionFontSize > 0.0
    && 0 <= p.margin <= (MinInt(p.width, p.height) - 1) / 2
    && Interior(p.width, p.margin) >= 1 && Interior(p.height, p.margin) >= 1
    && 1 <= p.qrSize <= MinInt(Interior(p.width, p.margin), Interior(p.height, p.margin))
    && (p.titleText == "" ==> p.secondaryText == "")
    && p.url != ""
  }

  /** How each field of `p` follows from the raw record `raw` (src/params.go:29-87). */
  predicate DerivedFrom(raw: LabelParams, p: LabelParams, urlPath: string -> Option<string>)
  {
    // non-positive sizes and font sizes fall back to their defaults
    && p.width == (if raw.width > 0 then raw.width else DefaultWidth)
    && p.height == (if raw.height > 0 then raw.height else DefaultHeight)
    && p.dpi == (if raw.dpi > 0.0 then raw.dpi else DefaultDpi)
    && p.titleFontSize == (if raw.titleFontSize > 0.0 then raw.titleFontSize else DefaultTitleFontSize)
    && p.descriptionFontSize ==
         (if raw.descriptionFontSize > 0.0 then raw.descriptionFontSize else DefaultDescFontSize)
    && p.padding == MaxInt(raw.padding, 0)
    // a negative margin becomes 0, a too large one the largest that keeps an interior
    && p.margin == MinInt(MaxInt(raw.margin, 0), MaxMargin(p.width, p.height))
    // a non-positive QR size becomes the default, and then at most the interior
    && p.qrSize == MinInt(if raw.qrSize > 0 then raw.qrSize else DefaultQrSize,
                          MinInt(Interior(p.width, p.margin), Interior(p.height, p.margin)))
    // the secondary text moves into an empty title
    && (if raw.titleText == "" && raw.secondaryText != ""
        then p.titleText == raw.secondaryText && p.secondaryText == ""
        else p.titleText == raw.titleText && p.secondaryText == raw.secondaryText)
    // an explicit ID wins; the URL, as given, is asked only when there is none
    && p.idText == (if raw.idText == "" then ExtractItemIDFromURL(raw.url, urlPath) else raw.idText)
    // an empty URL becomes the one-space sentinel
    && p.url == (if raw.url == "" then " " else raw.url)
  }

  /** The clamps and promotions of src/params.go:29-87, in the source's order. */
  method DeriveParams(raw: LabelParams, urlPath: string -> Option<string>) returns (p: LabelParams)
    ensures DerivedFrom(raw, p, urlPath)
    ensures Clamped(p)
  {
    p := ClampSize(raw);
    p := ClampMargin(p);
    p := ClampPaddingAndFonts(p);
    p := ClampQrSize(p);
    p := ResolveTexts(p, urlPath);
  }

  /** parseLabelParams: read every field from the query, then clamp and promote. */
  method ParseLabelParams(values: Values, parseFloat: string -> Option<real>,
                          urlPath: string -> Option<string>) returns (p: LabelParams)
    ensures DerivedFrom(RawParams(values, parseFloat), p, urlPath)
    ensures Clamped(p)
  {
    var raw := RawParams(values, parseFloat);
    p := DeriveParams(raw, urlPath);
  }
}
