/** The parts of Go's `strings` package that the label service relies on, over strings
    of runes: white space as `unicode.IsSpace` defines it, `TrimSpace`, `Fields`,
    `Split`, `HasSuffix`, `TrimSuffix` and `EqualFold`. */
module Strs {

  /** unicode.IsSpace: the Latin-1 spaces and the White_Space characters above U+00FF. */
  predicate IsSpace(c: char)
  {
    c == ' ' || c == '\t' || c == '\n' || c == '\r' || c == '\U{000B}' || c == '\U{000C}' ||
    c == '\U{0085}' || c == '\U{00A0}' || c == '\U{1680}' || ('\U{2000}' <= c <= '\U{200A}') ||
    c == '\U{2028}' || c == '\U{2029}' || c == '\U{202F}' || c == '\U{205F}' || c == '\U{3000}'
  }

  predicate AllSpace(s: string)
  {
    forall i :: 0 <= i < |s| ==> IsSpace(s[i])
  }

  predicate NoSpace(s: string)
  {
    forall i :: 0 <= i < |s| ==> !IsSpace(s[i])
  }

  /** Drops the leading white space. */
  function TrimLeftSpace(s: string): (r: string)
    ensures |r| <= |s| && r == s[|s| - |r|..]
    ensures r == "" || !IsSpace(r[0])
  {
    if |s| > 0 && IsSpace(s[0]) then TrimLeftSpace(s[1..]) else s
  }

  /** TrimLeftSpace drops nothing but white space. */
  lemma {:induction false} TrimLeftSpaceDropsOnlySpace(s: string)
    ensures AllSpace(s[..|s| - |TrimLeftSpace(s)|])
  {
    if |s| > 0 && IsSpace(s[0]) {
      TrimLeftSpaceDropsOnlySpace(s[1..]);
      var r := TrimLeftSpace(s);
      assert s[1..][..|s| - 1 - |r|] == s[1..|s| - |r|];
    }
  }

  /** Drops the trailing white space. */
  function TrimRightSpace(s: string): (r: string)
    ensures |r| <= |s| && r == s[..|r|]
    ensures r == "" || !IsSpace(r[|r| - 1])
  {
    if |s| > 0 && IsSpace(s[|s| - 1]) then TrimRightSpace(s[..|s| - 1]) else s
  }

  /** TrimRightSpace drops nothing but white space. */
  lemma {:induction false} TrimRightSpaceDropsOnlySpace(s: string)
    ensures AllSpace(s[|TrimRightSpace(s)|..])
  {
    if |s| > 0 && IsSpace(s[|s| - 1]) {
      TrimRightSpaceDropsOnlySpace(s[..|s| - 1]);
      var r := TrimRightSpace(s);
      assert s[..|s| - 1][|r|..] == s[|r|..|s| - 1];
    }
  }

  /** strings.TrimSpace: s without its leading and trailing white space. */
  function TrimSpace(s: string): (r: string)
    ensures r == "" || (!IsSpace(r[0]) && !IsSpace(r[|r| - 1]))
  {
    TrimRightSpace(TrimLeftSpace(s))
  }

  /** TrimSpace yields a contiguous piece of its input, and drops only white space. */
  lemma TrimSpaceIsInfix(s: string)
    ensures exists i, j :: 0 <= i <= j <= |s| && TrimSpace(s) == s[i..j] &&
                           AllSpace(s[..i]) && AllSpace(s[j..])
  {
    var l := TrimLeftSpace(s);
    var i := |s| - |l|;
    var j := i + |TrimRightSpace(l)|;
    TrimLeftSpaceDropsOnlySpace(s);
    TrimRightSpaceDropsOnlySpace(l);
    assert l[|TrimRightSpace(l)|..] == s[j..];
    assert TrimSpace(s) == s[i..j];
  }

  /** TrimSpace is "" exactly for strings of white space. */
  lemma TrimSpaceEmptyIff(s: string)
    ensures TrimSpace(s) == "" <==> AllSpace(s)
  {
    var l := TrimLeftSpace(s);
    assert s == s[..|s| - |l|] + l;
    TrimLeftSpaceDropsOnlySpace(s);
    TrimRightSpaceDropsOnlySpace(l);
    if TrimSpace(s) != "" {
      assert !IsSpace(l[0]);
      assert s[|s| - |l|] == l[0];
    }
  }

  /** Trimming twice trims nothing more. */
  lemma TrimSpaceIdempotent(s: string)
    ensures TrimSpace(TrimSpace(s)) == TrimSpace(s)
  {
    var t := TrimSpace(s);
    if t != "" {
      assert TrimLeftSpace(t) == t;
      assert TrimRightSpace(t) == t;
    }
  }

  /** The length of the leading run of non-space runes. */
  function WordLen(s: string): (n: nat)
    ensures n <= |s| && NoSpace(s[..n])
    ensures n == |s| || IsSpace(s[n])
  {
    if |s| == 0 || IsSpace(s[0]) then 0
    else
      var n := WordLen(s[1..]);
      assert s[..n + 1] == [s[0]] + s[1..][..n];
      n + 1
  }

  /** strings.Fields: the maximal runs of non-space runes, in order. */
  function Fields(s: string): (ws: seq<string>)
    decreases |s|
  {
    if s == "" then []
    else if IsSpace(s[0]) then Fields(s[1..])
    else
      var n := WordLen(s);
      [s[..n]] + Fields(s[n..])
  }

  /** Every field is a non-empty run of non-space runes. */
  lemma {:induction false} FieldIsWord(s: string, k: nat)
    requires k < |Fields(s)|
    ensures Fields(s)[k] != "" && NoSpace(Fields(s)[k])
    decreases |s|
  {
    if IsSpace(s[0]) {
      FieldIsWord(s[1..], k);
    } else if k > 0 {
      var n := WordLen(s);
      FieldIsWord(s[n..], k - 1);
    }
  }

  /** Fields finds no word exactly in a string of white space. */
  lemma {:induction false} FieldsEmptyIff(s: string)
    ensures Fields(s) == [] <==> AllSpace(s)
    decreases |s|
  {
    if s != "" {
      FieldsEmptyIff(s[1..]);
      assert AllSpace(s) <==> IsSpace(s[0]) && AllSpace(s[1..]);
    }
  }

  /** strings.Split with a one-rune separator: the pieces between separators, at least one. */
  function Split(s: string, sep: char): (parts: seq<string>)
    ensures |parts| >= 1
    ensures forall k :: 0 <= k < |parts| ==> sep !in parts[k]
  {
    if s == "" then [""]
    else
      var rest := Split(s[1..], sep);
      if s[0] == sep then [""] + rest
      else [[s[0]] + rest[0]] + rest[1..]
  }

  /** Joins pieces with a one-rune separator (strings.Join). */
  function Join(parts: seq<string>, sep: char): string
  {
    if |parts| == 0 then ""
    else if |parts| == 1 then parts[0]
    else parts[0] + [sep] + Join(parts[1..], sep)
  }

  /** Split loses nothing: joining its pieces back gives the input. */
  lemma {:induction false} SplitJoin(s: string, sep: char)
    ensures Join(Split(s, sep), sep) == s
  {
    if s != "" {
      SplitJoin(s[1..], sep);
      var rest := Split(s[1..], sep);
      if s[0] != sep {
        if |rest| > 1 {
          assert Join(Split(s, sep), sep) == [s[0]] + rest[0] + [sep] + Join(rest[1..], sep);
        }
      }
    }
  }

  /** strings.HasSuffix. */
  predicate HasSuffix(s: string, suffix: string)
  {
    |suffix| <= |s| && s[|s| - |suffix|..] == suffix
  }

  /** strings.TrimSuffix: s without suffix when it ends with it, else s. */
  function TrimSuffix(s: string, suffix: string): (r: string)
    ensures HasSuffix(s, suffix) ==> r + suffix == s
    ensures !HasSuffix(s, suffix) ==> r == s
  {
    if HasSuffix(s, suffix) then s[..|s| - |suffix|] else s
  }

  /** Simple case folding onto lower case for the runes whose fold class holds an ASCII
      letter: A-Z, the Kelvin sign (folds with k) and the long s (folds with s). */
  function FoldRune(c: char): char
  {
    if 'A' <= c <= 'Z' then (c as int + 32) as char
    else if c == '\U{212A}' then 'k'
    else if c == '\U{017F}' then 's'
    else c
  }

  /** strings.EqualFold: equal under simple case folding, rune by rune. */
  predicate EqualFold(a: string, b: string)
  {
    |a| == |b| && forall i :: 0 <= i < |a| ==> FoldRune(a[i]) == FoldRune(b[i])
  }
}
