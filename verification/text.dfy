/**
 * The Kotlin string operations the app relies on: `isBlank`, `trim`, `ifBlank`,
 * `orEmpty`, `joinToString`, `lines`, `length`, `take`, `compareTo` and
 * `contains(ignoreCase = true)`. A Dafny string is a sequence of Unicode
 * scalar values, while a Kotlin string is a sequence of UTF-16 code units:
 * `length`, `take` and `compareTo` are therefore stated over the UTF-16
 * encoding of the characters (`Utf16`), where a character beyond U+FFFF
 * counts as two units.
 */
module Text {
  import opened Wrappers

  /**
   * Kotlin's `Char.isWhitespace` on ASCII: tab, line feed, vertical tab, form
   * feed, carriage return, the four information separators and space.
   */
  predicate IsWhitespace(c: char) {
    ('\t' <= c <= '\r') || ('\U{1C}' <= c <= ' ')
  }

  /** `String.isBlank()`: empty, or whitespace only. */
  predicate IsBlank(s: string) {
    forall i :: 0 <= i < |s| ==> IsWhitespace(s[i])
  }

  /** Neither starts nor ends with whitespace: what `trim()` produces. */
  predicate IsTrimmed(s: string) {
    s == [] || (!IsWhitespace(s[0]) && !IsWhitespace(s[|s| - 1]))
  }

  /** The index of the first non-whitespace character at or after `i`, or `|s|`. */
  function SkipLeading(s: string, i: nat): (a: nat)
    requires i <= |s|
    decreases |s| - i
    ensures i <= a <= |s|
    ensures forall k :: i <= k < a ==> IsWhitespace(s[k])
    ensures a < |s| ==> !IsWhitespace(s[a])
  {
    if i < |s| && IsWhitespace(s[i]) then SkipLeading(s, i + 1) else i
  }

  /** The end of `s[..j]` once trailing whitespace is dropped, never below `low`. */
  function SkipTrailing(s: string, low: nat, j: nat): (b: nat)
    requires low <= j <= |s|
    decreases j - low
    ensures low <= b <= j
    ensures forall k :: b <= k < j ==> IsWhitespace(s[k])
    ensures b > low ==> !IsWhitespace(s[b - 1])
  {
    if j > low && IsWhitespace(s[j - 1]) then SkipTrailing(s, low, j - 1) else j
  }

  /**
   * `String.trim()`: scans forward past the leading whitespace and backward
   * past the trailing whitespace, and keeps what lies between.
   */
  function Trim(s: string): (r: string)
    ensures |r| <= |s|
    ensures IsTrimmed(r)
    ensures IsBlank(s) <==> r == []
  {
    var a := SkipLeading(s, 0);
    var b := SkipTrailing(s, a, |s|);
    assert a == b ==> IsBlank(s);
    s[a..b]
  }

  /** Trim removes a blank prefix and a blank suffix and keeps the slice between them. */
  lemma TrimSlice(s: string)
    ensures var a := SkipLeading(s, 0);
      var r := Trim(s);
      && a + |r| <= |s|
      && s[a..a + |r|] == r
      && IsBlank(s[..a])
      && IsBlank(s[a + |r|..])
  {
  }

  /** A string that is already trimmed is left as it is. */
  lemma TrimOfTrimmed(s: string)
    requires IsTrimmed(s)
    ensures Trim(s) == s
  {
    if s != [] {
      assert SkipLeading(s, 0) == 0;
      assert SkipTrailing(s, 0, |s|) == |s|;
    }
  }

  /** Trimming twice is trimming once: every payload field written trimmed reads back unchanged. */
  lemma TrimIdempotent(s: string)
    ensures Trim(Trim(s)) == Trim(s)
  {
    TrimOfTrimmed(Trim(s));
  }

  /** A value that survived a blank check is non-empty once trimmed. */
  lemma NotBlankTrimNonEmpty(s: string)
    requires !IsBlank(s)
    ensures |Trim(s)| > 0
  {
  }

  /** Checking `s.trim().isBlank()` is checking `s.isBlank()`. */
  lemma BlankAfterTrim(s: string)
    ensures IsBlank(Trim(s)) <==> IsBlank(s)
  {
    var r := Trim(s);
    if r != [] {
      assert !IsWhitespace(r[0]);
    }
  }

  /** Kotlin's `orEmpty()` on a nullable string. */
  function OrEmpty(s: Option<string>): string {
    s.GetOr("")
  }

  /** Kotlin's `ifBlank { alternative }`. */
  function IfBlank(s: string, alternative: string): (r: string)
    ensures !IsBlank(s) ==> r == s
    ensures IsBlank(s) ==> r == alternative
  {
    if IsBlank(s) then alternative else s
  }

  /**
   * `joinToString(separator)`: the items in order with the separator between
   * consecutive items.
   */
  function Join(items: seq<string>, separator: string): (r: string)
    ensures |items| == 0 ==> r == ""
    ensures |items| > 0 ==> items[0] <= r
    ensures |items| == 1 ==> r == items[0]
  {
    if |items| == 0 then ""
    else if |items| == 1 then items[0]
    else items[0] + separator + Join(items[1..], separator)
  }

  /** Joining splits at any inner boundary: the two halves with one separator between. */
  lemma {:induction false} JoinSplit(items: seq<string>, separator: string, k: nat)
    requires 0 < k < |items|
    ensures Join(items, separator) == Join(items[..k], separator) + separator + Join(items[k..], separator)
  {
    var rest := Join(items[1..], separator);
    assert Join(items, separator) == items[0] + separator + rest;
    if k == 1 {
      assert Join(items[..1], separator) == items[0];
    } else {
      JoinSplit(items[1..], separator, k - 1);
      assert items[1..][..k - 1] == items[..k][1..];
      assert items[1..][k - 1..] == items[k..];
      var left := Join(items[..k][1..], separator);
      assert rest == left + separator + Join(items[k..], separator);
      assert Join(items[..k], separator) == items[0] + separator + left;
    }
  }

  /** A non-blank string is the first item of a join: the join is not blank. */
  lemma JoinNotBlank(items: seq<string>, separator: string)
    requires |items| > 0 && !IsBlank(items[0])
    ensures !IsBlank(Join(items, separator))
  {
    var r := Join(items, separator);
    var i :| 0 <= i < |items[0]| && !IsWhitespace(items[0][i]);
    assert r[i] == items[0][i];
  }

  /** ASCII case folding: `Char.lowercaseChar` on the letters A-Z. */
  function LowerChar(c: char): char {
    if 'A' <= c <= 'Z' then (c as int + 32) as char else c
  }

  /** `String.lowercase()` with ASCII folding. */
  function Lowercase(s: string): (r: string)
    ensures |r| == |s|
    ensures forall i :: 0 <= i < |s| ==> r[i] == LowerChar(s[i])
  {
    seq(|s|, i requires 0 <= i < |s| => LowerChar(s[i]))
  }

  // ---------------------------------------------------------------- UTF-16

  /** The number of UTF-16 code units of `c`: two beyond U+FFFF, one otherwise. */
  function CharUnits(c: char): (n: nat)
    ensures 1 <= n <= 2
  {
    if c as int < 0x1_0000 then 1 else 2
  }

  /** The UTF-16 encoding of one character: itself, or its surrogate pair. */
  function Utf16Char(c: char): (u: seq<int>)
    ensures |u| == CharUnits(c)
    ensures forall i :: 0 <= i < |u| ==> 0 <= u[i] < 0x1_0000
  {
    if c as int < 0x1_0000 then [c as int]
    else [0xD800 + (c as int - 0x1_0000) / 0x400, 0xDC00 + (c as int - 0x1_0000) % 0x400]
  }

  /** A surrogate pair decodes back to the character it encodes. */
  lemma Utf16CharDecodes(c: char)
    ensures var u := Utf16Char(c);
      && (|u| == 1 ==> u[0] == c as int)
      && (|u| == 2 ==> 0xD800 <= u[0] < 0xDC00 <= u[1] < 0xE000)
      && (|u| == 2 ==> 0x1_0000 + (u[0] - 0xD800) * 0x400 + (u[1] - 0xDC00) == c as int)
  {
  }

  /** `String.length`: the number of UTF-16 code units. */
  function Utf16Length(s: string): (n: nat)
    ensures |s| <= n <= 2 * |s|
  {
    if s == [] then 0 else CharUnits(s[0]) + Utf16Length(s[1..])
  }

  /** The UTF-16 code units Kotlin stores for `s`. */
  function Utf16(s: string): (u: seq<int>)
    ensures |u| == Utf16Length(s)
  {
    if s == [] then [] else Utf16Char(s[0]) + Utf16(s[1..])
  }

  lemma {:induction false} Utf16LengthAppend(a: string, b: string)
    ensures Utf16Length(a + b) == Utf16Length(a) + Utf16Length(b)
  {
    if a != [] {
      assert (a + b)[0] == a[0] && (a + b)[1..] == a[1..] + b;
      Utf16LengthAppend(a[1..], b);
    } else {
      assert a + b == b;
    }
  }

  /** Below U+10000 a character is one code unit, so the two lengths agree. */
  lemma {:induction false} BasicPlaneLength(s: string)
    requires forall i :: 0 <= i < |s| ==> s[i] as int < 0x1_0000
    ensures Utf16Length(s) == |s|
  {
    if s != [] {
      BasicPlaneLength(s[1..]);
    }
  }

  /**
   * `take(n)`: Kotlin keeps the first `n` code units. Here the longest prefix of
   * whole characters within `n` units is kept; it is one unit short of `n`
   * exactly when the unit at position `n` would split a surrogate pair.
   */
  function TakeUnits(s: string, n: nat): (r: string)
    ensures r <= s
    ensures Utf16Length(r) <= n
    ensures |r| < |s| ==> Utf16Length(r) + CharUnits(s[|r|]) > n
    decreases |s|
  {
    if s == [] || CharUnits(s[0]) > n then []
    else
      var t := TakeUnits(s[1..], n - CharUnits(s[0]));
      assert ([s[0]] + t)[1..] == t;
      [s[0]] + t
  }

  /** What is kept is `n` units long, or one short at a surrogate pair, unless `s` is shorter. */
  lemma TakeUnitsLength(s: string, n: nat)
    ensures var r := TakeUnits(s, n);
      n <= Utf16Length(s) ==>
        || Utf16Length(r) == n
        || (|r| < |s| && CharUnits(s[|r|]) == 2 && Utf16Length(r) + 1 == n)
  {
    var r := TakeUnits(s, n);
    if |r| == |s| {
      assert r == s;
    }
  }

  /** `a.compareTo(b) <= 0` over code units: unit by unit, a proper prefix first. */
  predicate UnitsLe(a: seq<int>, b: seq<int>) {
    a == [] || (b != [] && (a[0] < b[0] || (a[0] == b[0] && UnitsLe(a[1..], b[1..]))))
  }

  /** `String.compareTo` compares UTF-16 code units, not code points. */
  predicate LexLe(a: string, b: string) {
    UnitsLe(Utf16(a), Utf16(b))
  }

  lemma {:induction false} UnitsTotal(a: seq<int>, b: seq<int>)
    ensures UnitsLe(a, b) || UnitsLe(b, a)
  {
    if a != [] && b != [] && a[0] == b[0] {
      UnitsTotal(a[1..], b[1..]);
    }
  }

  lemma {:induction false} UnitsTransitive(a: seq<int>, b: seq<int>, c: seq<int>)
    requires UnitsLe(a, b) && UnitsLe(b, c)
    ensures UnitsLe(a, c)
  {
    if a != [] && b != [] && c != [] && a[0] == b[0] && b[0] == c[0] {
      UnitsTransitive(a[1..], b[1..], c[1..]);
    }
  }

  lemma LexTotal(a: string, b: string)
    ensures LexLe(a, b) || LexLe(b, a)
  {
    UnitsTotal(Utf16(a), Utf16(b));
  }

  lemma LexTransitive(a: string, b: string, c: string)
    requires LexLe(a, b) && LexLe(b, c)
    ensures LexLe(a, c)
  {
    UnitsTransitive(Utf16(a), Utf16(b), Utf16(c));
  }

  /**
   * A character beyond U+FFFF sorts by its high surrogate, so it comes before
   * U+FF21 although its code point is larger.
   */
  lemma SurrogatesSortBelowHighBasicPlane()
    ensures LexLe("\U{1F600}", "\U{FF21}") && !LexLe("\U{FF21}", "\U{1F600}")
  {
    assert Utf16("\U{1F600}") == [0xD83D, 0xDE00];
    assert Utf16("\U{FF21}") == [0xFF21];
  }

  // ------------------------------------------------------------ line breaks

  /**
   * `lines()` joined back with "\n": "\r\n", a lone "\r" and "\n" each end a
   * line, and every line end becomes "\n".
   */
  function NormalizeLineBreaks(s: string): string
    decreases |s|
  {
    if s == [] then []
    else if s[0] == '\r' && |s| > 1 && s[1] == '\n' then "\n" + NormalizeLineBreaks(s[2..])
    else if s[0] == '\r' then "\n" + NormalizeLineBreaks(s[1..])
    else [s[0]] + NormalizeLineBreaks(s[1..])
  }

  /** No carriage return survives normalizing. */
  lemma {:induction false} NormalizeRemovesCarriageReturns(s: string)
    ensures '\r' !in NormalizeLineBreaks(s)
    decreases |s|
  {
    if s != [] {
      if s[0] == '\r' && |s| > 1 && s[1] == '\n' {
        NormalizeRemovesCarriageReturns(s[2..]);
      } else {
        NormalizeRemovesCarriageReturns(s[1..]);
      }
    }
  }

  /** A text without carriage returns is already normalized. */
  lemma {:induction false} NormalizeKeepsPlainText(s: string)
    requires '\r' !in s
    ensures NormalizeLineBreaks(s) == s
  {
    if s != [] {
      assert s[0] in s;
      assert '\r' !in s[1..] by {
        forall i | 0 <= i < |s[1..]| ensures s[1..][i] != '\r' {
          assert s[1..][i] == s[i + 1] && s[i + 1] in s;
        }
      }
      NormalizeKeepsPlainText(s[1..]);
      assert [s[0]] + s[1..] == s;
    }
  }

  /** A text ending in a line feed still ends in one once normalized. */
  lemma {:induction false} NormalizeKeepsFinalBreak(s: string)
    requires s != [] && s[|s| - 1] == '\n'
    ensures var n := NormalizeLineBreaks(s); n != [] && n[|n| - 1] == '\n'
    decreases |s|
  {
    if |s| > 1 {
      var k := if s[0] == '\r' && s[1] == '\n' then 2 else 1;
      if k < |s| {
        assert s[k..][|s[k..]| - 1] == '\n';
        NormalizeKeepsFinalBreak(s[k..]);
      }
    }
  }

  /** Normalizing distributes over a split that does not separate "\r" from "\n". */
  lemma {:induction false} NormalizeAppend(a: string, b: string)
    requires a == [] || a[|a| - 1] != '\r'
    ensures NormalizeLineBreaks(a + b) == NormalizeLineBreaks(a) + NormalizeLineBreaks(b)
  {
    if a == [] {
      assert a + b == b;
    } else {
      var k := if a[0] == '\r' && a[1] == '\n' then 2 else 1;
      var head := if a[0] == '\r' then "\n" else [a[0]];
      assert NormalizeLineBreaks(a + b) == head + NormalizeLineBreaks(a[k..] + b) by {
        assert (a + b)[0] == a[0];
        if |a| > 1 {
          assert (a + b)[1] == a[1];
        }
        assert (a + b)[k..] == a[k..] + b;
      }
      assert NormalizeLineBreaks(a) == head + NormalizeLineBreaks(a[k..]);
      NormalizeAppend(a[k..], b);
    }
  }

  /** With a final line break added, normalizing and dropping it again removes every "\r". */
  lemma NormalizeDropsFinalBreak(s: string)
    ensures var n := NormalizeLineBreaks(s + "\n");
      && |n| >= 1
      && '\r' !in n[..|n| - 1]
      && ('\r' !in s ==> n[..|n| - 1] == s)
  {
    var n := NormalizeLineBreaks(s + "\n");
    assert (s + "\n")[|s|] == '\n';
    NormalizeKeepsFinalBreak(s + "\n");
    NormalizeRemovesCarriageReturns(s + "\n");
    assert n == n[..|n| - 1] + [n[|n| - 1]];
    if '\r' !in s {
      assert '\r' !in s + "\n";
      NormalizeKeepsPlainText(s + "\n");
    }
  }

  /** A prefix free of "\r" survives normalizing, with the final line break dropped. */
  lemma NormalizeKeepsPrefix(p: string, s: string)
    requires p <= s && '\r' !in p
    ensures var n := NormalizeLineBreaks(s + "\n");
      |n| >= 1 && p <= n[..|n| - 1]
  {
    var rest := s[|p|..];
    assert s + "\n" == p + (rest + "\n");
    assert p != [] ==> p[|p| - 1] in p;
    NormalizeAppend(p, rest + "\n");
    NormalizeKeepsPlainText(p);
    NormalizeDropsFinalBreak(rest);
    PrefixBeforeLast(p, NormalizeLineBreaks(rest + "\n"));
  }

  lemma PrefixBeforeLast(p: string, m: string)
    requires |m| >= 1
    ensures var n := p + m; p <= n[..|n| - 1]
  {
    var n := p + m;
    assert n[..|n| - 1][..|p|] == p;
  }

  /** A lone carriage return and a CR LF pair both become one line feed. */
  lemma CarriageReturnsBecomeLineFeeds()
    ensures NormalizeLineBreaks("a\rb") == "a\nb"
    ensures NormalizeLineBreaks("a\r\nb") == "a\nb"
  {
    assert NormalizeLineBreaks("b") == "b";
    assert NormalizeLineBreaks("\rb") == "\nb";
    assert NormalizeLineBreaks("\r\nb") == "\nb";
  }

  /** `Char.equals(other, ignoreCase = true)` with ASCII folding. */
  predicate SameIgnoringCase(a: char, b: char) {
    LowerChar(a) == LowerChar(b)
  }

  /** The needle occurs in the haystack at position `at`, ignoring case. */
  ghost predicate OccursAt(haystack: string, needle: string, at: int) {
    && 0 <= at
    && at + |needle| <= |haystack|
    && forall k :: 0 <= k < |needle| ==> SameIgnoringCase(haystack[at + k], needle[k])
  }

  /** Compares `needle` with `haystack[at..]` character by character, ignoring case. */
  function MatchesAt(haystack: string, needle: string, at: nat, k: nat): (r: bool)
    requires at + |needle| <= |haystack|
    requires k <= |needle|
    decreases |needle| - k
    ensures r <==> forall j :: k <= j < |needle| ==> SameIgnoringCase(haystack[at + j], needle[j])
  {
    if k == |needle| then true
    else SameIgnoringCase(haystack[at + k], needle[k]) && MatchesAt(haystack, needle, at, k + 1)
  }

  /** Searches the positions `from..` for an occurrence, as `indexOf(ignoreCase = true)` does. */
  function SearchFrom(haystack: string, needle: string, from: nat): (r: bool)
    decreases |haystack| - from
    ensures r <==> exists at :: from <= at && OccursAt(haystack, needle, at)
  {
    if from + |needle| > |haystack| then
      assert forall at :: from <= at ==> !OccursAt(haystack, needle, at);
      false
    else if MatchesAt(haystack, needle, from, 0) then
      assert OccursAt(haystack, needle, from);
      true
    else
      var r := SearchFrom(haystack, needle, from + 1);
      assert !OccursAt(haystack, needle, from);
      assert (exists at :: from <= at && OccursAt(haystack, needle, at)) ==> (exists at :: from + 1 <= at && OccursAt(haystack, needle, at));
      r
  }

  /** `haystack.contains(needle, ignoreCase = true)`. */
  function ContainsIgnoreCase(haystack: string, needle: string): (r: bool)
    ensures r <==> exists at :: OccursAt(haystack, needle, at)
  {
    SearchFrom(haystack, needle, 0)
  }
}
