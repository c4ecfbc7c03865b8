/**
  The `java.lang.String`, `Integer`, `Long`, `Boolean` and `java.nio.file.Paths`
  behaviour the configuration readers and the driver factory depend on.
 */
module JavaText {
  import opened JavaLang

  // ---------------------------------------------------------------------------
  // Characters and case

  predicate IsDigit(c: char) {
    '0' <= c <= '9'
  }

  predicate AllDigits(s: string) {
    forall i :: 0 <= i < |s| ==> IsDigit(s[i])
  }

  predicate IsUpperAscii(c: char) {
    'A' <= c <= 'Z'
  }

  /** `Character.toLowerCase` restricted to ASCII letters. */
  function LowerChar(c: char): char {
    if IsUpperAscii(c) then (c as int + 32) as char else c
  }

  /** `String.toLowerCase()` in a locale whose rules agree with ASCII on ASCII letters. */
  function ToLower(s: string): (r: string)
    ensures |r| == |s|
    ensures forall i :: 0 <= i < |s| ==> r[i] == LowerChar(s[i])
  {
    if s == [] then [] else [LowerChar(s[0])] + ToLower(s[1..])
  }

  /** `a.equalsIgnoreCase(b)` with ASCII case folding. */
  predicate EqualsIgnoreCase(a: string, b: string) {
    ToLower(a) == ToLower(b)
  }

  /** `s.startsWith(prefix)`. */
  predicate StartsWith(s: string, prefix: string) {
    |prefix| <= |s| && s[..|prefix|] == prefix
  }

  /** `Character.toUpperCase` restricted to ASCII letters. */
  function UpperChar(c: char): char {
    if 'a' <= c <= 'z' then (c as int - 32) as char else c
  }

  /** A character lower-cases to a lower-case ASCII letter exactly when it is that letter in either case. */
  lemma LowerCharMatch(c: char, w: char)
    requires 'a' <= w <= 'z'
    ensures LowerChar(c) == w <==> c == w || c == UpperChar(w)
  {
  }

  /**
    The strings that lower-case to `word` are exactly those of the same length
    whose every character is the word's character or its upper-case ASCII form.
   */
  lemma ToLowerIsCaseInsensitiveMatch(s: string, word: string)
    requires forall i :: 0 <= i < |word| ==> 'a' <= word[i] <= 'z'
    ensures ToLower(s) == word <==>
      |s| == |word| && forall i :: 0 <= i < |s| ==> s[i] == word[i] || s[i] == UpperChar(word[i])
  {
    if |s| == |word| {
      forall i | 0 <= i < |s|
        ensures ToLower(s)[i] == word[i] <==> s[i] == word[i] || s[i] == UpperChar(word[i])
      {
        LowerCharMatch(s[i], word[i]);
      }
    }
  }

  // ---------------------------------------------------------------------------
  // String.trim()

  /** `String.trim()` treats every character up to and including U+0020 as blank. */
  predicate IsBlankChar(c: char) {
    c <= ' '
  }

  /** First index at or after `st` that is not blank (the first loop of `trim`). */
  function SkipLeading(s: string, st: nat): (r: nat)
    requires st <= |s|
    ensures st <= r <= |s|
    ensures forall k :: st <= k < r ==> IsBlankChar(s[k])
    ensures r < |s| ==> !IsBlankChar(s[r])
    decreases |s| - st
  {
    if st < |s| && IsBlankChar(s[st]) then SkipLeading(s, st + 1) else st
  }

  /** End of the text once trailing blanks above `st` are dropped (the second loop of `trim`). */
  function SkipTrailing(s: string, st: nat, len: nat): (r: nat)
    requires st <= len <= |s|
    ensures st <= r <= len
    ensures forall k :: r <= k < len ==> IsBlankChar(s[k])
    ensures r > st ==> !IsBlankChar(s[r - 1])
    decreases len
  {
    if st < len && IsBlankChar(s[len - 1]) then SkipTrailing(s, st, len - 1) else len
  }

  /** `s.trim()`: the longest middle slice whose first and last characters are not blank. */
  function Trim(s: string): (r: string)
    ensures |r| <= |s|
    ensures r != [] ==> !IsBlankChar(r[0]) && !IsBlankChar(r[|r| - 1])
  {
    var st := SkipLeading(s, 0);
    s[st..SkipTrailing(s, st, |s|)]
  }

  /** `s.trim().isEmpty()` holds exactly when every character of `s` is blank. */
  lemma TrimEmptyIffAllBlank(s: string)
    ensures Trim(s) == [] <==> forall k :: 0 <= k < |s| ==> IsBlankChar(s[k])
  {
    var st := SkipLeading(s, 0);
    var len := SkipTrailing(s, st, |s|);
    if Trim(s) == [] {
      assert len == st;
    } else {
      assert st < len;
      assert !IsBlankChar(s[len - 1]);
    }
  }

  /**
    `trim` cuts exactly the blank runs at both ends: for any cut points with
    only blanks outside them and a non-blank character at each inner edge,
    the result is the slice between them.
   */
  lemma TrimIsSliceBetweenNonBlanks(s: string, st: nat, en: nat)
    requires st <= en <= |s|
    requires forall k :: 0 <= k < st ==> IsBlankChar(s[k])
    requires forall k :: en <= k < |s| ==> IsBlankChar(s[k])
    requires st < en ==> !IsBlankChar(s[st]) && !IsBlankChar(s[en - 1])
    ensures Trim(s) == s[st..en]
  {
    if st == en {
      assert forall k :: 0 <= k < |s| ==> IsBlankChar(s[k]) by {
        forall k | 0 <= k < |s| ensures IsBlankChar(s[k]) {
          if k >= st { assert k >= en; }
        }
      }
      TrimEmptyIffAllBlank(s);
    } else {
      var a := SkipLeading(s, 0);
      assert a == st;
      var b := SkipTrailing(s, a, |s|);
      assert b == en;
    }
  }

  /** `trim` leaves alone a string whose two ends are not blank. */
  lemma TrimKeepsUnpaddedString(s: string)
    requires s != [] && !IsBlankChar(s[0]) && !IsBlankChar(s[|s| - 1])
    ensures Trim(s) == s
  {
    assert SkipLeading(s, 0) == 0;
    assert SkipTrailing(s, 0, |s|) == |s|;
  }

  // ---------------------------------------------------------------------------
  // Integer.parseInt / Long.parseLong / Integer.toString

  function DigitValue(c: char): nat
    requires IsDigit(c)
  {
    c as int - '0' as int
  }

  /** Value of a string of decimal digits, most significant first. */
  function DigitsValue(s: string): nat
    requires AllDigits(s)
  {
    if s == [] then 0 else DigitsValue(s[..|s| - 1]) * 10 + DigitValue(s[|s| - 1])
  }

  /**
    The numeral `parseInt`/`parseLong` accept: an optional `+` or `-`, then at
    least one digit, nothing else (no blanks, no radix prefix, no separators).
   */
  function DecimalValue(s: string): Option<int> {
    if |s| > 0 && (s[0] == '-' || s[0] == '+') then
      if |s| > 1 && AllDigits(s[1..]) then
        Some(if s[0] == '-' then 0 - DigitsValue(s[1..]) else DigitsValue(s[1..]))
      else None
    else if |s| > 0 && AllDigits(s) then Some(DigitsValue(s))
    else None
  }

  /** `Integer.parseInt(s)` for a non-null `s`: `None` is a `NumberFormatException`. */
  function ParseInt(s: string): (r: Option<Int32>)
    ensures r.Some? <==> DecimalValue(s).Some? && MinInt <= DecimalValue(s).value <= MaxInt
    ensures r.Some? ==> r.value == DecimalValue(s).value
  {
    match DecimalValue(s)
    case Some(v) => if MinInt <= v <= MaxInt then Some(v) else None
    case None => None
  }

  /** `Long.parseLong(s)` for a non-null `s`: `None` is a `NumberFormatException`. */
  function ParseLong(s: string): (r: Option<Int64>)
    ensures r.Some? <==> DecimalValue(s).Some? && MinLong <= DecimalValue(s).value <= MaxLong
    ensures r.Some? ==> r.value == DecimalValue(s).value
  {
    match DecimalValue(s)
    case Some(v) => if MinLong <= v <= MaxLong then Some(v) else None
    case None => None
  }

  /** The `NumberFormatException` the parsers throw for a non-null string. */
  function NumberFormat(s: string): Exc {
    Exc(NumberFormatException, "For input string: \"" + s + "\"", None)
  }

  /** The `NumberFormatException` the parsers throw for a `null` argument. */
  const NumberFormatNull: Exc := Exc(NumberFormatException, "null", None)

  /** Every character of a numeral the parser accepts is a sign or a digit; in particular it has no blanks. */
  lemma ParsedNumeralHasNoBlanks(s: string)
    requires DecimalValue(s).Some?
    ensures forall i :: 0 <= i < |s| ==> IsDigit(s[i]) || s[i] == '-' || s[i] == '+'
    ensures s != [] && !IsBlankChar(s[0]) && !IsBlankChar(s[|s| - 1])
  {
    if s[0] == '-' || s[0] == '+' {
      forall i | 1 <= i < |s| ensures IsDigit(s[i]) {
        assert s[i] == s[1..][i - 1];
      }
    }
  }

  function DigitChar(d: nat): (c: char)
    requires d < 10
    ensures IsDigit(c) && DigitValue(c) == d
  {
    ('0' as int + d) as char
  }

  /** `Long.toString(n)` for `n >= 0`: digits without leading zeros. */
  function NatToString(n: nat): (r: string)
    ensures |r| > 0 && AllDigits(r)
    decreases n
  {
    if n < 10 then [DigitChar(n)] else NatToString(n / 10) + [DigitChar(n % 10)]
  }

  /** `Integer.toString(n)`. */
  function IntToString(n: int): (r: string)
    ensures |r| > 0
  {
    if n < 0 then "-" + NatToString(-n) else NatToString(n)
  }

  lemma {:induction false} NatToStringValue(n: nat)
    ensures DigitsValue(NatToString(n)) == n
    decreases n
  {
    var s := NatToString(n);
    if n >= 10 {
      NatToStringValue(n / 10);
      assert s[..|s| - 1] == NatToString(n / 10);
    }
  }

  /** The numeral `Integer.toString` writes is read back by the parser as the same number. */
  lemma {:induction false} DecimalValueOfToString(n: int)
    ensures DecimalValue(IntToString(n)) == Some(n)
  {
    if n < 0 {
      NatToStringValue(-n);
      assert IntToString(n)[1..] == NatToString(-n);
    } else {
      NatToStringValue(n);
      var s := NatToString(n);
      assert s[0] != '-' && s[0] != '+' by { assert IsDigit(s[0]); }
    }
  }

  /** `Integer.parseInt(Integer.toString(n)) == n` for every `int`. */
  lemma ParseIntToString(n: Int32)
    ensures ParseInt(IntToString(n)) == Some(n)
  {
    DecimalValueOfToString(n);
  }

  /** `Long.parseLong(Long.toString(n)) == n` for every `long`. */
  lemma ParseLongToString(n: Int64)
    ensures ParseLong(IntToString(n)) == Some(n)
  {
    DecimalValueOfToString(n);
  }

  // ---------------------------------------------------------------------------
  // Boolean.parseBoolean

  /** `Boolean.parseBoolean(s)`: `s != null && s.equalsIgnoreCase("true")`. */
  function ParseBoolean(s: Option<string>): (r: bool)
    ensures s.None? ==> !r
  {
    s.Some? && EqualsIgnoreCase(s.value, "true")
  }

  /** Exactly the sixteen spellings of "true" in any mix of cases parse to `true`. */
  lemma ParseBooleanTrueIff(s: string)
    ensures ParseBoolean(Some(s)) <==>
      |s| == 4 && (s[0] == 't' || s[0] == 'T') && (s[1] == 'r' || s[1] == 'R')
               && (s[2] == 'u' || s[2] == 'U') && (s[3] == 'e' || s[3] == 'E')
  {
    assert ToLower("true") == "true";
    ToLowerIsCaseInsensitiveMatch(s, "true");
    assert UpperChar('t') == 'T' && UpperChar('r') == 'R' && UpperChar('u') == 'U' && UpperChar('e') == 'E';
  }

  // ---------------------------------------------------------------------------
  // Paths.get(first, more).toString() on a Unix file system

  /** Drop every '/' that directly follows another '/'. */
  function CollapseSlashes(s: string): (r: string)
    ensures |r| <= |s|
    ensures s != [] ==> r != [] && r[0] == s[0]
    ensures s != [] ==> r[|r| - 1] == s[|s| - 1]
    ensures forall i :: 0 <= i < |r| - 1 ==> !(r[i] == '/' && r[i + 1] == '/')
    ensures forall c :: c in r ==> c in s
  {
    if |s| <= 1 then s
    else if s[|s| - 1] == '/' && s[|s| - 2] == '/' then CollapseSlashes(s[..|s| - 1])
    else
      var p := CollapseSlashes(s[..|s| - 1]);
      assert p[|p| - 1] == s[|s| - 2];
      p + [s[|s| - 1]]
  }

  /** Drop every trailing '/'. */
  function StripTrailingSlashes(s: string): (r: string)
    ensures |r| <= |s| && r == s[..|r|]
    ensures r != [] ==> r[|r| - 1] != '/'
    ensures forall k :: |r| <= k < |s| ==> s[k] == '/'
  {
    if s != [] && s[|s| - 1] == '/' then StripTrailingSlashes(s[..|s| - 1]) else s
  }

  /** `UnixPath.normalizeAndCheck`: strip trailing slashes, keep a lone root, collapse runs of '/'. */
  function NormalizePath(s: string): (r: string)
    ensures forall i :: 0 <= i < |r| - 1 ==> !(r[i] == '/' && r[i + 1] == '/')
    ensures |r| > 1 ==> r[|r| - 1] != '/'
    ensures s == [] <==> r == []
  {
    if s == [] then []
    else
      var t := StripTrailingSlashes(s);
      if t == [] then "/" else CollapseSlashes(t)
  }

  /** `Paths.get(first, more).toString()`: the non-empty parts joined by '/', then normalised. */
  function JoinPath(first: string, more: string): (r: Result<string>)
    ensures r.Ok? <==> '\0' !in first && '\0' !in more
  {
    if '\0' in first || '\0' in more then Throw(Exc(InvalidPathException, "Nul character not allowed", None))
    else
      var joined := if more == [] then first else if first == [] then more else first + "/" + more;
      assert '\0' !in joined;
      Ok(NormalizePath(joined))
  }

  /** Joining a clean absolute home directory with a clean relative remainder is plain concatenation with one '/'. */
  lemma JoinCleanPaths(home: string, rest: string)
    requires home != [] && home[0] == '/' && home[|home| - 1] != '/'
    requires rest != [] && rest[0] != '/' && rest[|rest| - 1] != '/'
    requires '\0' !in home && '\0' !in rest
    requires forall i :: 0 <= i < |home| - 1 ==> !(home[i] == '/' && home[i + 1] == '/')
    requires forall i :: 0 <= i < |rest| - 1 ==> !(rest[i] == '/' && rest[i + 1] == '/')
    ensures JoinPath(home, rest) == Ok(home + "/" + rest)
  {
    var j := home + "/" + rest;
    assert StripTrailingSlashes(j) == j;
    CollapseNoRunsIsIdentity(j);
  }

  lemma {:induction false} CollapseNoRunsIsIdentity(s: string)
    requires forall i :: 0 <= i < |s| - 1 ==> !(s[i] == '/' && s[i + 1] == '/')
    ensures CollapseSlashes(s) == s
    decreases |s|
  {
    if |s| > 1 {
      var p := s[..|s| - 1];
      CollapseNoRunsIsIdentity(p);
      assert !(s[|s| - 2] == '/' && s[|s| - 1] == '/');
      assert p + [s[|s| - 1]] == s;
    }
  }
}
