/** The string operations of the Kotlin standard library that the agent relies on:
    `startsWith`, `removePrefix`, `isBlank`, `trim`, `split("\\s+".toRegex())`,
    `joinToString(" ")`, `lowercase`/`uppercase`, `toIntOrNull`/`toLongOrNull`, and
    `String.compareTo`. Whitespace follows Kotlin's full `Char.isWhitespace` for `trim` and
    ICU's `\s` for the regex; strings compare by their UTF-16 code units, as a JVM string
    does; lower-case mapping and digits are those of ASCII. */
module Text {
  import opened Wrappers

  /** The class `\s` of java.util.regex on Android, which runs on ICU: tab, newline, form
      feed and return, and the Unicode separators (general category Z) — the spaces
      U+0020, U+00A0, U+1680, U+2000..U+200A, U+202F, U+205F and U+3000, the line
      separator U+2028 and the paragraph separator U+2029. The vertical tab is not in it. */
  predicate IsRegexSpace(c: char) {
    || c == '\t' || c == '\n' || c == '\U{C}' || c == '\r'
    || c == ' ' || c == '\U{A0}' || c == '\U{1680}'
    || ('\U{2000}' <= c <= '\U{200A}')
    || c == '\U{2028}' || c == '\U{2029}' || c == '\U{202F}' || c == '\U{205F}' || c == '\U{3000}'
  }

  /** Kotlin's `Char.isWhitespace`, which `trim` and `isBlank` use: Java's
      `Character.isWhitespace` or `Character.isSpaceChar`. That is the regex class, the
      vertical tab and the four separators U+001C..U+001F. */
  predicate IsTrimSpace(c: char) {
    IsRegexSpace(c) || c == '\U{B}' || ('\U{1C}' <= c <= '\U{1F}')
  }

  predicate NoRegexSpace(s: string) {
    forall i :: 0 <= i < |s| ==> !IsRegexSpace(s[i])
  }

  predicate NoTrimSpace(s: string) {
    forall i :: 0 <= i < |s| ==> !IsTrimSpace(s[i])
  }

  predicate StartsWith(s: string, prefix: string) {
    |prefix| <= |s| && s[..|prefix|] == prefix
  }

  predicate EndsWith(s: string, suffix: string) {
    |suffix| <= |s| && s[|s| - |suffix|..] == suffix
  }

  /** Kotlin's `removePrefix`: drops `prefix` once when `s` starts with it. */
  function RemovePrefix(s: string, prefix: string): (r: string)
    ensures StartsWith(s, prefix) ==> s == prefix + r
    ensures !StartsWith(s, prefix) ==> r == s
  {
    if StartsWith(s, prefix) then s[|prefix|..] else s
  }

  /** Kotlin's `isBlank`: empty or whitespace only. */
  predicate IsBlank(s: string) {
    forall i :: 0 <= i < |s| ==> IsTrimSpace(s[i])
  }

  function TrimStart(s: string): (r: string)
    ensures |r| <= |s| && s[|s| - |r|..] == r
    ensures r == [] || !IsTrimSpace(r[0])
    decreases |s|
  {
    if s != [] && IsTrimSpace(s[0]) then TrimStart(s[1..]) else s
  }

  function TrimEnd(s: string): (r: string)
    ensures |r| <= |s| && s[..|r|] == r
    ensures r == [] || !IsTrimSpace(r[|r| - 1])
    decreases |s|
  {
    if s != [] && IsTrimSpace(s[|s| - 1]) then TrimEnd(s[..|s| - 1]) else s
  }

  /** Kotlin's `trim()`: drops leading and trailing whitespace. */
  function Trim(s: string): string {
    TrimEnd(TrimStart(s))
  }

  /** A string that does not begin or end with whitespace is its own trim. */
  lemma TrimUnchanged(s: string)
    requires s == [] || (!IsTrimSpace(s[0]) && !IsTrimSpace(s[|s| - 1]))
    ensures Trim(s) == s
  {
  }

  /** The rest of `s` after its leading run of `\s` characters. */
  function SkipSpaces(s: string): (r: string)
    ensures |r| <= |s| && s[|s| - |r|..] == r
    ensures r == [] || !IsRegexSpace(r[0])
    ensures s != [] && IsRegexSpace(s[0]) ==> |r| < |s|
    decreases |s|
  {
    if s != [] && IsRegexSpace(s[0]) then SkipSpaces(s[1..]) else s
  }

  /** `s.split("\\s+".toRegex())` as Kotlin computes it: the pieces between maximal runs of
      `\s`, keeping the empty piece before a leading run and after a trailing one
      (Kotlin's `Regex.split` does not drop trailing empty strings). */
  function SplitWs(s: string): (r: seq<string>)
    ensures |r| >= 1
    ensures forall i :: 0 <= i < |r| ==> NoRegexSpace(r[i])
    decreases |s|
  {
    if s == [] then [""]
    else if IsRegexSpace(s[0]) then [""] + SplitWs(SkipSpaces(s))
    else
      var rest := SplitWs(s[1..]);
      [[s[0]] + rest[0]] + rest[1..]
  }

  /** `joinToString(sep)`. */
  function Join(parts: seq<string>, sep: string): string
    decreases |parts|
  {
    if parts == [] then ""
    else if |parts| == 1 then parts[0]
    else parts[0] + sep + Join(parts[1..], sep)
  }

  /** A piece without whitespace splits to itself. */
  lemma {:induction false} SplitWord(w: string)
    requires NoRegexSpace(w)
    ensures SplitWs(w) == [w]
    decreases |w|
  {
    if w != [] {
      SplitWord(w[1..]);
      assert [w[0]] + w[1..] == w;
    }
  }

  /** Splitting `w + " " + t` peels off `w` when `w` has no whitespace and `t` does not
      start with whitespace. */
  lemma {:induction false} SplitAfterWord(w: string, t: string)
    requires NoRegexSpace(w)
    requires t == [] || !IsRegexSpace(t[0])
    ensures SplitWs(w + " " + t) == [w] + SplitWs(t)
    decreases |w|
  {
    var s := w + " " + t;
    if w == [] {
      assert s == [' '] + t;
      assert SkipSpaces(s) == SkipSpaces(t) by {
        assert s[1..] == t;
      }
    } else {
      assert s[1..] == w[1..] + " " + t;
      SplitAfterWord(w[1..], t);
      assert [w[0]] + w[1..] == w;
    }
  }

  /** Split undoes a join with single spaces, as long as every piece is non-empty and
      free of whitespace: the round trip the `ls -l` and `ps` parsers depend on. */
  lemma {:induction false} SplitJoin(parts: seq<string>)
    requires |parts| >= 1
    requires forall i :: 0 <= i < |parts| ==> parts[i] != [] && NoRegexSpace(parts[i])
    ensures SplitWs(Join(parts, " ")) == parts
    decreases |parts|
  {
    if |parts| == 1 {
      SplitWord(parts[0]);
    } else {
      var t := Join(parts[1..], " ");
      JoinStartsWith(parts[1..], " ");
      SplitAfterWord(parts[0], t);
      SplitJoin(parts[1..]);
    }
  }

  /** A join of non-empty pieces begins with the first character of the first piece and
      ends with the last character of the last piece. */
  lemma {:induction false} JoinStartsWith(parts: seq<string>, sep: string)
    requires |parts| >= 1 && forall i :: 0 <= i < |parts| ==> parts[i] != []
    ensures var j := Join(parts, sep); j != [] && j[0] == parts[0][0]
    ensures var j := Join(parts, sep); j != [] && j[|j| - 1] == parts[|parts| - 1][|parts[|parts| - 1]| - 1]
    decreases |parts|
  {
    if |parts| > 1 {
      JoinStartsWith(parts[1..], sep);
    }
  }

  /** Every character of a join comes from a piece or from the separator. */
  lemma {:induction false} JoinChars(parts: seq<string>, sep: string, c: char)
    requires forall i :: 0 <= i < |parts| ==> c !in parts[i]
    requires c !in sep
    ensures c !in Join(parts, sep)
    decreases |parts|
  {
    if |parts| > 1 {
      JoinChars(parts[1..], sep, c);
    }
  }

  // ---- case mapping ----

  /** Lower case of the ASCII letters; every other character is kept. */
  function LowerChar(c: char): char {
    if 'A' <= c <= 'Z' then (c as int + 32) as char else c
  }

  /** Upper case, exact wherever the upper case is an ASCII letter: the ASCII letters, and
      the two other characters whose upper case is one, the long s (U+017F, to 'S') and the
      dotless i (U+0131, to 'I'). Every other character is kept. */
  function UpperChar(c: char): char {
    if 'a' <= c <= 'z' then (c as int - 32) as char
    else if c == '\U{17F}' then 'S'
    else if c == '\U{131}' then 'I'
    else c
  }

  function Lower(s: string): (r: string)
    ensures |r| == |s| && forall i :: 0 <= i < |s| ==> r[i] == LowerChar(s[i])
  {
    seq(|s|, i requires 0 <= i < |s| => LowerChar(s[i]))
  }

  function Upper(s: string): (r: string)
    ensures |r| == |s| && forall i :: 0 <= i < |s| ==> r[i] == UpperChar(s[i])
  {
    seq(|s|, i requires 0 <= i < |s| => UpperChar(s[i]))
  }

  // ---- integers ----

  const IntMin: int := -0x8000_0000
  const IntMax: int := 0x7FFF_FFFF
  const LongMin: int := -0x8000_0000_0000_0000
  const LongMax: int := 0x7FFF_FFFF_FFFF_FFFF

  /** Two's-complement wrap-around of a JVM `Long` arithmetic result. */
  function WrapLong(x: int): (r: int)
    ensures LongMin <= r <= LongMax
    ensures LongMin <= x <= LongMax ==> r == x
  {
    var m := (x - LongMin) % 0x1_0000_0000_0000_0000;
    m + LongMin
  }

  predicate IsDigit(c: char) {
    '0' <= c <= '9'
  }

  predicate AllDigits(s: string) {
    forall i :: 0 <= i < |s| ==> IsDigit(s[i])
  }

  /** The value of a string of decimal digits, most significant first. */
  function DigitsValue(s: string): (v: nat)
    requires AllDigits(s)
    decreases |s|
  {
    if s == [] then 0
    else DigitsValue(s[..|s| - 1]) * 10 + (s[|s| - 1] as int - '0' as int)
  }

  /** Kotlin's `toIntOrNull()` / `toLongOrNull()` for the range [lo, hi]: an optional
      '+' or '-', then at least one digit and nothing else, and a value in range. */
  function ParseInteger(s: string, lo: int, hi: int): (r: Option<int>)
    ensures r.Some? ==> lo <= r.value <= hi
    ensures r.Some? ==> s != [] && AllDigits(s[if s[0] == '-' || s[0] == '+' then 1 else 0..])
  {
    if s == [] then None
    else
      var signed := s[0] == '-' || s[0] == '+';
      var digits := if signed then s[1..] else s;
      if digits == [] || !AllDigits(digits) then None
      else
        var magnitude: int := DigitsValue(digits);
        var v := if s[0] == '-' then -magnitude else magnitude;
        if lo <= v <= hi then Some(v) else None
  }

  /** `toIntOrNull()`. */
  function ParseInt(s: string): Option<int> {
    ParseInteger(s, IntMin, IntMax)
  }

  /** `toLongOrNull()`. */
  function ParseLong(s: string): Option<int> {
    ParseInteger(s, LongMin, LongMax)
  }

  /** Decimal digits of a natural number, as `toString()` prints it. */
  function Digits(n: nat): (s: string)
    ensures s != [] && AllDigits(s)
  {
    if n < 10 then [('0' as int + n) as char]
    else Digits(n / 10) + [('0' as int + n % 10) as char]
  }

  /** `Int.toString()` / `Long.toString()`. */
  function Decimal(n: int): string {
    if n < 0 then "-" + Digits(-n) else Digits(n)
  }

  lemma {:induction false} DigitsValueOfDigits(n: nat)
    ensures DigitsValue(Digits(n)) == n
  {
    if n >= 10 {
      var s := Digits(n);
      assert s[..|s| - 1] == Digits(n / 10);
      DigitsValueOfDigits(n / 10);
    }
  }

  /** Parsing what `toString()` printed gives the number back, for every value in range. */
  lemma ParseDecimal(n: int, lo: int, hi: int)
    requires lo <= n <= hi
    ensures ParseInteger(Decimal(n), lo, hi) == Some(n)
  {
    var s := Decimal(n);
    if n < 0 {
      var ds := Digits(-n);
      assert s == "-" + ds;
      assert s[0] == '-' && s[1..] == ds;
      DigitsValueOfDigits(-n);
    } else {
      var ds := Digits(n);
      assert s == ds;
      assert s[0] != '-' && s[0] != '+' by { assert IsDigit(ds[0]); }
      DigitsValueOfDigits(n);
    }
  }

  // ---- ordering ----

  /** The UTF-16 code units of one character: itself below U+10000, otherwise its high and
      its low surrogate. */
  function Utf16Char(c: char): (r: seq<int>)
    ensures (c as int) < 0x1_0000 ==> r == [c as int]
    ensures (c as int) >= 0x1_0000 ==> |r| == 2 && 0xD800 <= r[0] < 0xDC00 <= r[1] < 0xE000
  {
    var n := c as int;
    if n < 0x1_0000 then [n]
    else [0xD800 + (n - 0x1_0000) / 0x400, 0xDC00 + (n - 0x1_0000) % 0x400]
  }

  /** The UTF-16 code units of a string, which is what a JVM string holds. */
  function Utf16(s: string): (r: seq<int>)
    ensures |s| <= |r| <= 2 * |s|
  {
    if s == [] then [] else Utf16Char(s[0]) + Utf16(s[1..])
  }

  /** Lexicographic order of code units, a prefix first. */
  predicate UnitsLe(a: seq<int>, b: seq<int>)
    decreases |a|
  {
    a == [] || (b != [] && (a[0] < b[0] || (a[0] == b[0] && UnitsLe(a[1..], b[1..]))))
  }

  /** `a.compareTo(b) <= 0`: JVM strings compare code unit by code unit, a prefix first. */
  predicate StrLe(a: string, b: string) {
    UnitsLe(Utf16(a), Utf16(b))
  }

  lemma {:induction false} UnitsLeTotal(a: seq<int>, b: seq<int>)
    ensures UnitsLe(a, b) || UnitsLe(b, a)
    decreases |a|
  {
    if a != [] && b != [] && a[0] == b[0] {
      UnitsLeTotal(a[1..], b[1..]);
    }
  }

  lemma {:induction false} UnitsLeTrans(a: seq<int>, b: seq<int>, c: seq<int>)
    requires UnitsLe(a, b) && UnitsLe(b, c)
    ensures UnitsLe(a, c)
    decreases |a|
  {
    if a != [] && b != [] && c != [] && a[0] == b[0] && b[0] == c[0] {
      UnitsLeTrans(a[1..], b[1..], c[1..]);
    }
  }

  lemma StrLeTotal(a: string, b: string)
    ensures StrLe(a, b) || StrLe(b, a)
  {
    UnitsLeTotal(Utf16(a), Utf16(b));
  }

  lemma StrLeTrans(a: string, b: string, c: string)
    requires StrLe(a, b) && StrLe(b, c)
    ensures StrLe(a, c)
  {
    UnitsLeTrans(Utf16(a), Utf16(b), Utf16(c));
  }

  /** Code-unit order is not code-point order: a character outside the Basic Multilingual
      Plane, whose high surrogate is below U+E000, sorts before every character from U+E000
      to U+FFFF, whatever their code points. */
  lemma SupplementaryBeforeHighBmp(a: char, b: char)
    requires (a as int) >= 0x1_0000 && 0xE000 <= (b as int) < 0x1_0000
    ensures StrLe([a], [b]) && !StrLe([b], [a])
  {
    assert Utf16([a]) == Utf16Char(a);
    assert Utf16([b]) == Utf16Char(b);
  }
}
