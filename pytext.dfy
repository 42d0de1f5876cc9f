/** The Python string built-ins the services rely on (`str.isspace`,
    `lower`, `strip`, `split`, `join`, `title`, `replace`, `int(...)` and
    `str(int)`), stated over `seq<char>`. Case mapping covers ASCII letters
    only. */
module PyText {
  import opened Wrappers

  // ---------------------------------------------------------------------
  // Characters

  /** `c.isspace()`: the characters `str.split()` and `str.strip()` treat
      as whitespace. */
  predicate IsSpace(c: char) {
    ('\t' <= c <= '\r') || ('\U{1C}' <= c <= ' ') || c == '\U{85}' || c == '\U{A0}'
    || c == '\U{1680}' || ('\U{2000}' <= c <= '\U{200A}') || c == '\U{2028}'
    || c == '\U{2029}' || c == '\U{202F}' || c == '\U{205F}' || c == '\U{3000}'
  }

  predicate IsUpper(c: char) { 'A' <= c <= 'Z' }

  predicate IsLower(c: char) { 'a' <= c <= 'z' }

  /** A character with case; what `str.title()` looks at in the previous character. */
  predicate IsCased(c: char) { IsUpper(c) || IsLower(c) }

  predicate IsDigit(c: char) { '0' <= c <= '9' }

  function LowerChar(c: char): (r: char)
    ensures !IsUpper(r)
    ensures IsCased(c) <==> IsCased(r)
  {
    if IsUpper(c) then (c as int + 32) as char else c
  }

  function UpperChar(c: char): (r: char)
    ensures !IsLower(r)
    ensures IsCased(c) <==> IsCased(r)
  {
    if IsLower(c) then (c as int - 32) as char else c
  }

  // ---------------------------------------------------------------------
  // lower()

  predicate NoUpper(s: string) {
    forall i :: 0 <= i < |s| ==> !IsUpper(s[i])
  }

  /** `s.lower()`. */
  function Lower(s: string): (r: string)
    ensures |r| == |s| && NoUpper(r)
    ensures forall i :: 0 <= i < |s| ==> r[i] == LowerChar(s[i])
  {
    seq(|s|, i requires 0 <= i < |s| => LowerChar(s[i]))
  }

  /** A string without upper-case letters is its own lower-case form. */
  lemma LowerOfLowercase(s: string)
    requires NoUpper(s)
    ensures Lower(s) == s
  {
  }

  lemma LowerIdempotent(s: string)
    ensures Lower(Lower(s)) == Lower(s)
  {
    LowerOfLowercase(Lower(s));
  }

  // ---------------------------------------------------------------------
  // strip()

  function StripLeading(s: string): (r: string)
    ensures |r| <= |s| && r == s[|s| - |r|..]
    ensures r == [] || !IsSpace(r[0])
    ensures forall i :: 0 <= i < |s| - |r| ==> IsSpace(s[i])
    decreases |s|
  {
    if s != [] && IsSpace(s[0]) then StripLeading(s[1..]) else s
  }

  function StripTrailing(s: string): (r: string)
    ensures |r| <= |s| && r == s[..|r|]
    ensures r == [] || !IsSpace(r[|r| - 1])
    ensures forall i :: |r| <= i < |s| ==> IsSpace(s[i])
    decreases |s|
  {
    if s != [] && IsSpace(s[|s| - 1]) then StripTrailing(s[..|s| - 1]) else s
  }

  /** Neither starts nor ends with whitespace. */
  predicate Trimmed(s: string) {
    s == [] || (!IsSpace(s[0]) && !IsSpace(s[|s| - 1]))
  }

  /** `t` is the slice of `s` at `i`, with only whitespace before it and
      after it. */
  predicate InsideSpaces(s: string, i: int, t: string) {
    && 0 <= i && i + |t| <= |s| && t == s[i..i + |t|]
    && (forall k :: 0 <= k < i ==> IsSpace(s[k]))
    && (forall k :: i + |t| <= k < |s| ==> IsSpace(s[k]))
  }

  /** `s.strip()`: `s` without leading and trailing whitespace. */
  function Strip(s: string): (r: string)
    ensures Trimmed(r)
    ensures |r| <= |s|
    ensures Trimmed(s) ==> r == s
  {
    StripTrailing(StripLeading(s))
  }

  /** What `strip()` keeps is a slice of `s` with only whitespace on either
      side. */
  lemma StripInside(s: string)
    ensures exists i :: InsideSpaces(s, i, Strip(s))
  {
    var t := StripLeading(s);
    var r := StripTrailing(t);
    var i := |s| - |t|;
    assert r == s[i..i + |r|];
    forall k | i + |r| <= k < |s| ensures IsSpace(s[k]) {
      assert s[k] == t[k - i];
    }
    assert Strip(s) == r;
    assert InsideSpaces(s, i, r);
  }

  /** The slice `strip()` keeps is the only one of its kind: a trimmed
      slice of `s` with only whitespace on either side is `Strip(s)`. */
  lemma StripUnique(s: string, i: int, t: string)
    requires Trimmed(t) && InsideSpaces(s, i, t)
    ensures Strip(s) == t
  {
    var r := Strip(s);
    StripInside(s);
    var j :| InsideSpaces(s, j, r);
    if t != [] {
      assert s[i] == t[0] && s[i + |t| - 1] == t[|t| - 1];
    }
    if r != [] {
      assert s[j] == r[0] && s[j + |r| - 1] == r[|r| - 1];
    }
  }

  // ---------------------------------------------------------------------
  // split() and join()

  /** A non-empty run of non-whitespace characters, as `str.split()` yields. */
  predicate IsWord(w: string) {
    w != [] && forall i :: 0 <= i < |w| ==> !IsSpace(w[i])
  }

  predicate AllWords(ws: seq<string>) {
    forall i :: 0 <= i < |ws| ==> IsWord(ws[i])
  }

  /** Length of the longest whitespace-free prefix of `s`. */
  function WordEnd(s: string): (n: nat)
    ensures n <= |s|
    ensures forall i :: 0 <= i < n ==> !IsSpace(s[i])
    ensures n < |s| ==> IsSpace(s[n])
  {
    if s == [] || IsSpace(s[0]) then 0 else 1 + WordEnd(s[1..])
  }

  /** `s.split()` with no separator: the maximal whitespace-free runs, in order. */
  function Split(s: string): (words: seq<string>)
    ensures AllWords(words)
    decreases |s|
  {
    if s == [] then []
    else if IsSpace(s[0]) then Split(s[1..])
    else
      var n := WordEnd(s);
      [s[..n]] + Split(s[n..])
  }

  /** `sep.join(parts)`. */
  function Join(sep: string, parts: seq<string>): string {
    if parts == [] then ""
    else if |parts| == 1 then parts[0]
    else parts[0] + sep + Join(sep, parts[1..])
  }

  lemma {:induction false} WordEndOfWord(w: string, t: string)
    requires IsWord(w)
    requires t == [] || IsSpace(t[0])
    ensures WordEnd(w + t) == |w|
    decreases |w|
  {
    var s := w + t;
    assert s[0] == w[0] && !IsSpace(s[0]);
    if |w| == 1 {
      assert s[1..] == t;
    } else {
      assert s[1..] == w[1..] + t;
      assert IsWord(w[1..]) by {
        forall i | 0 <= i < |w[1..]| ensures !IsSpace(w[1..][i]) {
          assert w[1..][i] == w[i + 1];
        }
      }
      WordEndOfWord(w[1..], t);
    }
  }

  /** A word followed by whitespace or nothing splits off as one word. */
  lemma SplitWordThen(w: string, t: string)
    requires IsWord(w)
    requires t == [] || IsSpace(t[0])
    ensures Split(w + t) == [w] + Split(t)
  {
    WordEndOfWord(w, t);
    assert (w + t)[..|w|] == w;
    assert (w + t)[|w|..] == t;
  }

  /** Joining words with single spaces and splitting again gives the words back. */
  lemma {:induction false} SplitJoin(ws: seq<string>)
    requires AllWords(ws)
    ensures Split(Join(" ", ws)) == ws
  {
    if ws == [] {
    } else if |ws| == 1 {
      SplitWordThen(ws[0], "");
      assert ws[0] + "" == ws[0];
    } else {
      var rest := Join(" ", ws[1..]);
      assert AllWords(ws[1..]);
      SplitJoin(ws[1..]);
      assert ws[0] + " " + rest == ws[0] + (" " + rest);
      SplitWordThen(ws[0], " " + rest);
      assert (" " + rest)[1..] == rest;
    }
  }

  /** `split()` yields nothing exactly when the text is empty or all whitespace. */
  lemma {:induction false} SplitEmpty(s: string)
    ensures Split(s) == [] <==> forall i :: 0 <= i < |s| ==> IsSpace(s[i])
    decreases |s|
  {
    if s != [] && IsSpace(s[0]) {
      SplitEmpty(s[1..]);
      assert forall i :: 1 <= i < |s| ==> s[i] == s[1..][i - 1];
    }
  }

  // ---------------------------------------------------------------------
  // split(sep) for a one-character separator

  /** `s.split(sep)` for a single-character `sep`. */
  function SplitOn(s: string, sep: char): (parts: seq<string>)
    ensures |parts| >= 1
    ensures forall i, j :: 0 <= i < |parts| && 0 <= j < |parts[i]| ==> parts[i][j] != sep
    decreases |s|
  {
    if s == [] then [""]
    else
      var rest := SplitOn(s[1..], sep);
      if s[0] == sep then [""] + rest
      else [[s[0]] + rest[0]] + rest[1..]
  }

  lemma JoinCons(sep: string, first: string, rest: seq<string>)
    requires rest != []
    ensures Join(sep, [first] + rest) == first + sep + Join(sep, rest)
  {
    assert ([first] + rest)[1..] == rest;
  }

  /** Joining the pieces with the separator gives the text back. */
  lemma {:induction false} SplitOnJoin(s: string, sep: char)
    ensures Join([sep], SplitOn(s, sep)) == s
    decreases |s|
  {
    if s != [] {
      var rest := SplitOn(s[1..], sep);
      SplitOnJoin(s[1..], sep);
      if s[0] == sep {
        JoinCons([sep], "", rest);
      } else if |rest| == 1 {
        assert s == [s[0]] + s[1..];
      } else {
        JoinCons([sep], rest[0], rest[1..]);
        assert rest == [rest[0]] + rest[1..];
        JoinCons([sep], [s[0]] + rest[0], rest[1..]);
        assert s == [s[0]] + s[1..];
      }
    }
  }

  /** Text without the separator splits into itself alone. */
  lemma {:induction false} SplitOnNoSep(s: string, sep: char)
    requires sep !in s
    ensures SplitOn(s, sep) == [s]
    decreases |s|
  {
    if s != [] {
      SplitOnNoSep(s[1..], sep);
      assert s == [s[0]] + s[1..];
    }
  }

  /** Splitting text that has a separator at a given place splits the two
      sides separately. */
  lemma {:induction false} SplitOnSep(a: string, b: string, sep: char)
    ensures SplitOn(a + [sep] + b, sep) == SplitOn(a, sep) + SplitOn(b, sep)
    decreases |a|
  {
    var s := a + [sep] + b;
    if a == [] {
      assert s[0] == sep && s[1..] == b;
    } else {
      var restA := SplitOn(a[1..], sep);
      assert s[0] == a[0] && s[1..] == a[1..] + [sep] + b;
      calc {
        SplitOn(s, sep);
      == { SplitOnStep(s, sep); }
        if a[0] == sep then [""] + SplitOn(s[1..], sep)
        else [[a[0]] + SplitOn(s[1..], sep)[0]] + SplitOn(s[1..], sep)[1..];
      == { SplitOnSep(a[1..], b, sep); }
        if a[0] == sep then [""] + (restA + SplitOn(b, sep))
        else [[a[0]] + (restA + SplitOn(b, sep))[0]] + (restA + SplitOn(b, sep))[1..];
      == { assert (restA + SplitOn(b, sep))[0] == restA[0];
           assert (restA + SplitOn(b, sep))[1..] == restA[1..] + SplitOn(b, sep); }
        (if a[0] == sep then [""] + restA else [[a[0]] + restA[0]] + restA[1..]) + SplitOn(b, sep);
      == { SplitOnStep(a, sep); }
        SplitOn(a, sep) + SplitOn(b, sep);
      }
    }
  }

  /** One unfolding of `SplitOn` on non-empty text. */
  lemma SplitOnStep(s: string, sep: char)
    requires s != []
    ensures SplitOn(s, sep) ==
      if s[0] == sep then [""] + SplitOn(s[1..], sep)
      else [[s[0]] + SplitOn(s[1..], sep)[0]] + SplitOn(s[1..], sep)[1..]
  {
  }

  /** Two separator-free pieces joined by one separator split back into
      exactly those two pieces. */
  lemma SplitOnPair(a: string, b: string, sep: char)
    requires sep !in a && sep !in b
    ensures SplitOn(a + [sep] + b, sep) == [a, b]
  {
    SplitOnSep(a, b, sep);
    SplitOnNoSep(a, sep);
    SplitOnNoSep(b, sep);
  }

  /** The text before the first `sep`: `s.split(sep)[0]`. */
  function BeforeFirst(s: string, sep: char): (r: string)
    ensures r <= s
    ensures forall j :: 0 <= j < |r| ==> r[j] != sep
    ensures |r| < |s| ==> s[|r|] == sep
  {
    var parts := SplitOn(s, sep);
    SplitOnJoin(s, sep);
    if |parts| == 1 then parts[0]
    else
      JoinCons([sep], parts[0], parts[1..]);
      assert parts == [parts[0]] + parts[1..];
      parts[0]
  }

  // ---------------------------------------------------------------------
  // replace() for one character

  /** `s.replace(c, sub)` for a one-character pattern. */
  function ReplaceChar(s: string, c: char, sub: string): (r: string)
    ensures c !in s ==> r == s
    ensures c !in sub ==> c !in r
  {
    if s == [] then []
    else (if s[0] == c then sub else [s[0]]) + ReplaceChar(s[1..], c, sub)
  }

  // ---------------------------------------------------------------------
  // title()

  function TitleFrom(s: string, afterCased: bool): (r: string)
    ensures |r| == |s|
    ensures |s| > 0 ==> r[0] == (if afterCased then LowerChar(s[0]) else UpperChar(s[0]))
    ensures forall i :: 0 < i < |s| ==>
      r[i] == (if IsCased(s[i - 1]) then LowerChar(s[i]) else UpperChar(s[i]))
  {
    if s == [] then []
    else
      var c := if afterCased then LowerChar(s[0]) else UpperChar(s[0]);
      var rest := TitleFrom(s[1..], IsCased(s[0]));
      assert forall i :: 1 < i < |s| ==> s[1..][i - 2] == s[i - 1] && rest[i - 1] == ([c] + rest)[i];
      [c] + rest
  }

  /** `s.title()`: a letter after a cased letter becomes lower case, any
      other letter upper case. */
  function Title(s: string): (r: string)
    ensures |r| == |s|
    ensures forall i :: 0 <= i < |s| ==>
      r[i] == (if i > 0 && IsCased(s[i - 1]) then LowerChar(s[i]) else UpperChar(s[i]))
  {
    TitleFrom(s, false)
  }

  // ---------------------------------------------------------------------
  // str(int) and int(str)

  function DigitChar(d: nat): (c: char)
    requires d < 10
    ensures IsDigit(c)
  {
    ('0' as int + d) as char
  }

  function DigitValue(c: char): nat
    requires IsDigit(c)
  {
    c as int - '0' as int
  }

  /** Decimal digits of `n`, most significant first, no leading zero. */
  function NatToString(n: nat): (r: string)
    ensures |r| >= 1
    ensures forall i :: 0 <= i < |r| ==> IsDigit(r[i])
    ensures |r| > 1 ==> r[0] != '0'
  {
    if n < 10 then [DigitChar(n)] else NatToString(n / 10) + [DigitChar(n % 10)]
  }

  /** `str(i)` for an int. */
  function IntToString(i: int): (r: string)
    ensures |r| >= 1
  {
    if i < 0 then "-" + NatToString(-i) else NatToString(i)
  }

  /** Digits with single underscores between them: what `int()` accepts
      after the sign. */
  predicate IsDecimalLiteral(d: string) {
    && d != []
    && IsDigit(d[0])
    && IsDigit(d[|d| - 1])
    && (forall i :: 0 <= i < |d| ==> IsDigit(d[i]) || d[i] == '_')
    && (forall i :: 0 <= i < |d| - 1 && d[i] == '_' ==> IsDigit(d[i + 1]))
  }

  /** Value of a digit string, underscores skipped. */
  function DecimalValue(d: string): nat
    requires forall i :: 0 <= i < |d| ==> IsDigit(d[i]) || d[i] == '_'
  {
    if d == [] then 0
    else if d[|d| - 1] == '_' then DecimalValue(d[..|d| - 1])
    else DecimalValue(d[..|d| - 1]) * 10 + DigitValue(d[|d| - 1])
  }

  /** `int(s)` on a string: surrounding whitespace, an optional sign and a
      decimal literal; `None` where Python raises ValueError. */
  function ParseInt(s: string): (r: Option<int>)
    ensures r.Some? ==> exists i :: 0 <= i < |s| && IsDigit(s[i])
  {
    var t := Strip(s);
    if t != [] && (t[0] == '-' || t[0] == '+') then
      var body := t[1..];
      if IsDecimalLiteral(body) then
        assert IsDigit(t[1]);
        var v: int := DecimalValue(body);
        Some(if t[0] == '-' then -v else v)
      else None
    else if IsDecimalLiteral(t) then
      Some(DecimalValue(t))
    else None
  }

  lemma {:induction false} DecimalValueOfNat(n: nat)
    ensures DecimalValue(NatToString(n)) == n
    decreases n
  {
    var r := NatToString(n);
    if n >= 10 {
      DecimalValueOfNat(n / 10);
      assert r[..|r| - 1] == NatToString(n / 10);
    }
  }

  lemma NatToStringIsLiteral(n: nat)
    ensures IsDecimalLiteral(NatToString(n))
  {
  }

  /** `int()` of a bare decimal literal. */
  lemma ParseIntOfLiteral(d: string)
    requires IsDecimalLiteral(d)
    ensures ParseInt(d) == Some(DecimalValue(d) as int)
  {
    assert Trimmed(d);
    assert Strip(d) == d;
  }

  /** `int()` of a minus sign followed by a decimal literal. */
  lemma ParseIntOfNegated(d: string)
    requires IsDecimalLiteral(d)
    ensures ParseInt("-" + d) == Some(-(DecimalValue(d) as int))
  {
    var s := "-" + d;
    assert s[|s| - 1] == d[|d| - 1];
    assert Trimmed(s);
    assert Strip(s) == s;
    assert s[1..] == d;
  }

  /** `int(str(i)) == i`. */
  lemma ParseIntOfIntToString(i: int)
    ensures ParseInt(IntToString(i)) == Some(i)
  {
    var n: nat := if i < 0 then -i else i;
    DecimalValueOfNat(n);
    NatToStringIsLiteral(n);
    if i < 0 {
      ParseIntOfNegated(NatToString(n));
    } else {
      ParseIntOfLiteral(NatToString(n));
    }
  }
}
