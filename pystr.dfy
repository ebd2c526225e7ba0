/**
 * The Python string primitives the pipeline relies on, stated over
 * `string = seq<char>`: `str.endswith`, `str.startswith`, `str.split(sep)`,
 * `str.rfind`, `str.rsplit(sep, 1)`, `os.path.splitext`, `str.strip()`,
 * `str.lower()`, `str(int)`, `str(bool)` and the zero padding of `strftime`.
 */
module PyStr {

  // ---------------------------------------------------------------------
  // Prefixes and suffixes

  /** `s.endswith(suffix)` */
  predicate EndsWith(s: string, suffix: string) {
    |suffix| <= |s| && s[|s| - |suffix|..] == suffix
  }

  /** `s.startswith(prefix)` */
  predicate StartsWith(s: string, prefix: string) {
    |prefix| <= |s| && s[..|prefix|] == prefix
  }

  // ---------------------------------------------------------------------
  // Splitting on a one-character separator

  /** `s.split(sep)` for a one-character `sep`: never empty, `""` gives `[""]`. */
  function Split(s: string, sep: char): (r: seq<string>)
    ensures |r| >= 1
    decreases |s|
  {
    if |s| == 0 then [""]
    else
      var rest := Split(s[1..], sep);
      if s[0] == sep then [""] + rest else [[s[0]] + rest[0]] + rest[1..]
  }

  /** `sep.join(ws)` */
  function Join(ws: seq<string>, sep: char): string
    decreases |ws|
  {
    if |ws| == 0 then ""
    else if |ws| == 1 then ws[0]
    else ws[0] + [sep] + Join(ws[1..], sep)
  }

  /** `s.split(sep)[-1]` */
  function LastToken(s: string, sep: char): string {
    var parts := Split(s, sep);
    parts[|parts| - 1]
  }

  /** Splitting and joining again gives back the string, and no piece holds the separator. */
  lemma {:induction false} JoinSplit(s: string, sep: char)
    ensures Join(Split(s, sep), sep) == s
    ensures forall i :: 0 <= i < |Split(s, sep)| ==> sep !in Split(s, sep)[i]
    decreases |s|
  {
    if |s| > 0 {
      JoinSplit(s[1..], sep);
      var rest := Split(s[1..], sep);
      if s[0] == sep {
        assert Split(s, sep) == [""] + rest;
        if |rest| == 1 {
          assert rest[0] == s[1..];
        }
      } else {
        if |rest| == 1 {
          assert Split(s, sep) == [[s[0]] + rest[0]];
        } else {
          assert Join(rest, sep) == rest[0] + [sep] + Join(rest[1..], sep);
        }
        assert [s[0]] + s[1..] == s;
      }
    }
  }

  /** A string without the separator splits into itself alone. */
  lemma {:induction false} SplitNoSep(w: string, sep: char)
    requires sep !in w
    ensures Split(w, sep) == [w]
    decreases |w|
  {
    if |w| > 0 {
      assert sep !in w[1..];
      SplitNoSep(w[1..], sep);
      assert [w[0]] + w[1..] == w;
    }
  }

  /** Splitting distributes over a separator: the separator ends one piece and starts the next. */
  lemma {:induction false} SplitConcat(a: string, b: string, sep: char)
    ensures Split(a + [sep] + b, sep) == Split(a, sep) + Split(b, sep)
    decreases |a|
  {
    var s := a + [sep] + b;
    if |a| == 0 {
      assert s[0] == sep && s[1..] == b;
    } else {
      assert s[0] == a[0];
      assert s[1..] == a[1..] + [sep] + b;
      SplitConcat(a[1..], b, sep);
    }
  }

  /** Appending a separator and a word without separators adds that word to the split. */
  lemma SplitSnocWord(c: string, word: string, sep: char)
    requires sep !in word
    ensures Split(c + [sep] + word, sep) == Split(c, sep) + [word]
  {
    SplitConcat(c, word, sep);
    SplitNoSep(word, sep);
  }

  /** A trailing separator adds an empty word to the split. */
  lemma SplitSnocEmpty(c: string, sep: char)
    ensures Split(c + [sep], sep) == Split(c, sep) + [""]
  {
    SplitSnocWord(c, "", sep);
    assert c + [sep] + "" == c + [sep];
  }

  /** Joining pieces free of the separator and splitting again gives back the pieces. */
  lemma {:induction false} SplitJoin(ws: seq<string>, sep: char)
    requires |ws| >= 1
    requires forall i :: 0 <= i < |ws| ==> sep !in ws[i]
    ensures Split(Join(ws, sep), sep) == ws
    decreases |ws|
  {
    if |ws| == 1 {
      SplitNoSep(ws[0], sep);
    } else {
      SplitJoin(ws[1..], sep);
      SplitConcat(ws[0], Join(ws[1..], sep), sep);
      SplitNoSep(ws[0], sep);
      assert [ws[0]] + ws[1..] == ws;
    }
  }

  // ---------------------------------------------------------------------
  // Searching from the right

  /** `s.rfind(c)`: the index of the last `c`, or -1. */
  function RFind(s: string, c: char): (r: int)
    ensures -1 <= r < |s|
    ensures r == -1 <==> c !in s
    ensures r >= 0 ==> s[r] == c && c !in s[r + 1..]
    decreases |s|
  {
    if |s| == 0 then -1
    else if s[|s| - 1] == c then |s| - 1
    else
      var t := s[..|s| - 1];
      var r := RFind(t, c);
      assert s == t + [s[|s| - 1]];
      RFindSnoc(t, s[|s| - 1], c, r);
      r
  }

  /** The last `c` of `t` is still the last one once a character other than `c` is appended. */
  lemma RFindSnoc(t: string, x: char, c: char, r: int)
    requires x != c
    requires -1 <= r < |t| && (r == -1 <==> c !in t) && (r >= 0 ==> t[r] == c && c !in t[r + 1..])
    ensures -1 <= r < |t + [x]| && (r == -1 <==> c !in t + [x])
    ensures r >= 0 ==> (t + [x])[r] == c && c !in (t + [x])[r + 1..]
  {
    if r >= 0 {
      assert (t + [x])[r + 1..] == t[r + 1..] + [x];
    }
  }

  /** The last token of a split is exactly the text after the last separator. */
  lemma LastTokenAfterLastSep(s: string, sep: char)
    ensures LastToken(s, sep) == s[RFind(s, sep) + 1..]
  {
    var i := RFind(s, sep);
    if i == -1 {
      SplitNoSep(s, sep);
    } else {
      assert s == s[..i] + [sep] + s[i + 1..];
      SplitConcat(s[..i], s[i + 1..], sep);
      SplitNoSep(s[i + 1..], sep);
    }
  }

  /** The last separator of `b + [sep] + e`, when `e` has none, is the one added. */
  lemma {:induction false} RFindAfter(b: string, e: string, sep: char)
    requires sep !in e
    ensures RFind(b + [sep] + e, sep) == |b|
    decreases |e|
  {
    var s := b + [sep] + e;
    if |e| > 0 {
      assert s[..|s| - 1] == b + [sep] + e[..|e| - 1];
      assert s[|s| - 1] == e[|e| - 1];
      RFindAfter(b, e[..|e| - 1], sep);
    }
  }

  /** `s.rsplit(sep, 1)`: one piece when `sep` is absent, otherwise the text before and after the last `sep`. */
  function RSplitOnce(s: string, sep: char): (r: seq<string>)
    ensures |r| == (if sep in s then 2 else 1)
    ensures Join(r, sep) == s
    ensures |r| == 2 ==> sep !in r[1]
  {
    var i := RFind(s, sep);
    if i < 0 then [s]
    else
      assert s == s[..i] + [sep] + s[i + 1..];
      [s[..i], s[i + 1..]]
  }

  /** With a separator present, the two pieces are the text around the last one. */
  lemma RSplitOnceAt(s: string, sep: char)
    requires sep in s
    ensures RSplitOnce(s, sep) == [s[..RFind(s, sep)], s[RFind(s, sep) + 1..]]
  {
  }

  // ---------------------------------------------------------------------
  // os.path.splitext (POSIX: separator '/', extension separator '.')

  /** Some character of `p[lo..hi]` is not a dot. */
  predicate HasNonDot(p: string, lo: int, hi: int)
    requires 0 <= lo && hi <= |p|
  {
    exists k :: lo <= k < hi && p[k] != '.'
  }

  /**
   * `os.path.splitext(p)`: split at the last dot of the final path component,
   * unless every character before that dot in the component is a dot too
   * (so `.bashrc` and `..x` have no extension).
   */
  function SplitExt(p: string): (r: (string, string))
    ensures r.0 + r.1 == p
    ensures r.1 == "" || (r.1[0] == '.' && '.' !in r.1[1..] && '/' !in r.1)
  {
    var sepIndex := RFind(p, '/');
    var dotIndex := RFind(p, '.');
    if dotIndex > sepIndex && HasNonDot(p, sepIndex + 1, dotIndex) then
      assert p[dotIndex..][1..] == p[dotIndex + 1..];
      assert forall k :: dotIndex <= k < |p| ==> p[k] != '/';
      (p[..dotIndex], p[dotIndex..])
    else
      (p, "")
  }

  /** The stem `os.path.splitext(p)[0]`. */
  function Stem(p: string): string {
    SplitExt(p).0
  }

  /** For a name with a stem and one extension, `splitext` cuts exactly at the extension's dot. */
  lemma {:induction false} SplitExtOfStemAndExt(stem: string, ext: string)
    requires '/' !in stem && '.' !in ext && '/' !in ext
    requires HasNonDot(stem, 0, |stem|)
    ensures SplitExt(stem + "." + ext) == (stem, "." + ext)
  {
    var p := stem + "." + ext;
    assert p == stem + ['.'] + ext;
    RFindAfter(stem, ext, '.');
    assert '/' !in p;
    var k :| 0 <= k < |stem| && stem[k] != '.';
    assert p[k] == stem[k];
    assert HasNonDot(p, 0, |stem|);
    assert p[..|stem|] == stem;
    assert p[|stem|..] == "." + ext;
  }

  // ---------------------------------------------------------------------
  // str.strip()

  /** The characters for which Python's `str.isspace()` holds. */
  predicate IsSpace(c: char) {
    c in {'\t', '\n', '\U{000B}', '\U{000C}', '\r', '\U{001C}', '\U{001D}', '\U{001E}', '\U{001F}', ' ',
          '\U{0085}', '\U{00A0}', '\U{1680}', '\U{2000}', '\U{2001}', '\U{2002}', '\U{2003}', '\U{2004}',
          '\U{2005}', '\U{2006}', '\U{2007}', '\U{2008}', '\U{2009}', '\U{200A}', '\U{2028}', '\U{2029}',
          '\U{202F}', '\U{205F}', '\U{3000}'}
  }

  /** The number of leading whitespace characters. */
  function LeadingSpaces(s: string): (n: nat)
    ensures n <= |s|
    ensures forall k :: 0 <= k < n ==> IsSpace(s[k])
    ensures n < |s| ==> !IsSpace(s[n])
    decreases |s|
  {
    if |s| > 0 && IsSpace(s[0]) then 1 + LeadingSpaces(s[1..]) else 0
  }

  /** The number of trailing whitespace characters. */
  function TrailingSpaces(s: string): (n: nat)
    ensures n <= |s|
    ensures forall k :: |s| - n <= k < |s| ==> IsSpace(s[k])
    ensures n < |s| ==> !IsSpace(s[|s| - n - 1])
    decreases |s|
  {
    if |s| > 0 && IsSpace(s[|s| - 1]) then 1 + TrailingSpaces(s[..|s| - 1]) else 0
  }

  /**
   * `s.strip()`: the slice of `s` left after removing leading and trailing
   * whitespace.  Only whitespace is removed, and what is left neither starts
   * nor ends with whitespace.
   */
  function Strip(s: string): (r: string)
    ensures var i := LeadingSpaces(s);
      && i + |r| <= |s| && r == s[i..i + |r|]
      && (forall k :: i + |r| <= k < |s| ==> IsSpace(s[k]))
    ensures r == "" || (!IsSpace(r[0]) && !IsSpace(r[|r| - 1]))
  {
    var i := LeadingSpaces(s);
    var t := s[i..];
    var n := TrailingSpaces(t);
    var r := t[..|t| - n];
    assert r == s[i..i + |r|];
    assert forall k :: i + |r| <= k < |s| ==> s[k] == t[k - i];
    assert r != "" ==> r[0] == s[i] && r[|r| - 1] == t[|t| - n - 1];
    r
  }

  /** Stripping a stripped string changes nothing. */
  lemma StripIdempotent(s: string)
    ensures Strip(Strip(s)) == Strip(s)
  {
    var r := Strip(s);
    if r != "" {
      assert LeadingSpaces(r) == 0;
      assert TrailingSpaces(r) == 0;
    }
  }

  // ---------------------------------------------------------------------
  // str.lower() on ASCII letters

  function LowerChar(c: char): char {
    if 'A' <= c <= 'Z' then (c as int - 'A' as int + 'a' as int) as char else c
  }

  /** `s.lower()`, letter by letter. */
  function Lower(s: string): string {
    seq(|s|, i requires 0 <= i < |s| => LowerChar(s[i]))
  }

  /** Lower-casing twice is lower-casing once. */
  lemma LowerIdempotent(s: string)
    ensures Lower(Lower(s)) == Lower(s)
  {
  }

  // ---------------------------------------------------------------------
  // Decimal rendering: str(n) for a natural number, and its inverse

  predicate IsDigit(c: char) {
    '0' <= c <= '9'
  }

  function DigitChar(d: nat): (c: char)
    requires d < 10
    ensures IsDigit(c)
  {
    ('0' as int + d) as char
  }

  function DigitValue(c: char): (d: nat)
    requires IsDigit(c)
    ensures d < 10
  {
    c as int - '0' as int
  }

  /** `str(n)`: the decimal digits of `n`, most significant first, without leading zeros. */
  function NatToString(n: nat): (r: string)
    ensures |r| >= 1
    ensures forall i :: 0 <= i < |r| ==> IsDigit(r[i])
    decreases n
  {
    if n < 10 then [DigitChar(n)] else NatToString(n / 10) + [DigitChar(n % 10)]
  }

  /** The value of a string of decimal digits (`int(s)` for such strings). */
  function ParseDigits(s: string): nat
    requires forall i :: 0 <= i < |s| ==> IsDigit(s[i])
    decreases |s|
  {
    if |s| == 0 then 0 else ParseDigits(s[..|s| - 1]) * 10 + DigitValue(s[|s| - 1])
  }

  /** Reading back the decimal rendering of a number gives the number. */
  lemma {:induction false} ParseNatToString(n: nat)
    ensures ParseDigits(NatToString(n)) == n
    decreases n
  {
    var s := NatToString(n);
    if n >= 10 {
      ParseNatToString(n / 10);
      assert s[..|s| - 1] == NatToString(n / 10);
    }
  }

  function Pow10(k: nat): (r: nat)
    ensures r >= 1
  {
    if k == 0 then 1 else 10 * Pow10(k - 1)
  }

  /** A number below 10^w has at most w digits. */
  lemma {:induction false} NatToStringLength(n: nat, w: nat)
    requires w >= 1 && n < Pow10(w)
    ensures |NatToString(n)| <= w
    decreases n
  {
    if n >= 10 {
      assert w >= 2;
      assert n / 10 < Pow10(w - 1);
      NatToStringLength(n / 10, w - 1);
    }
  }

  function Zeros(k: nat): (r: string)
    ensures |r| == k && forall i :: 0 <= i < k ==> r[i] == '0'
  {
    if k == 0 then "" else Zeros(k - 1) + "0"
  }

  /** `n` rendered with at least `w` digits, padded on the left with zeros (the `%m`, `%Y` directives). */
  function ZeroPad(n: nat, w: nat): string {
    var d := NatToString(n);
    if |d| >= w then d else Zeros(w - |d|) + d
  }

  /** A number below 10^w pads to exactly w digits. */
  lemma ZeroPadShape(n: nat, w: nat)
    requires w >= 1 && n < Pow10(w)
    ensures |ZeroPad(n, w)| == w
    ensures forall i :: 0 <= i < w ==> IsDigit(ZeroPad(n, w)[i])
  {
    NatToStringLength(n, w);
  }

  // ---------------------------------------------------------------------
  // str(bool)

  /** `str(b)` for a Python bool. */
  function BoolStr(b: bool): string {
    if b then "True" else "False"
  }
}
