/**
 * The parts of Python's `str`, `os.path` (POSIX flavour) and f-string number
 * formatting that the scraper and the image processor rely on, written as
 * total functions over `seq<char>`.
 */
module Strings {

  predicate StartsWith(s: string, prefix: string) {
    |prefix| <= |s| && s[..|prefix|] == prefix
  }

  predicate EndsWith(s: string, suffix: string) {
    |suffix| <= |s| && s[|s| - |suffix|..] == suffix
  }

  /** Python's `sub in s`. */
  predicate Contains(s: string, sub: string)
    decreases |s|
  {
    StartsWith(s, sub) || (|s| > 0 && Contains(s[1..], sub))
  }

  /** `s.replace(a, b)` for one-character arguments. */
  function ReplaceChar(s: string, a: char, b: char): string {
    seq(|s|, i requires 0 <= i < |s| => if s[i] == a then b else s[i])
  }

  /** `s.lower()` restricted to ASCII letters. */
  function Lower(s: string): string {
    seq(|s|, i requires 0 <= i < |s| => if 'A' <= s[i] <= 'Z' then (s[i] as int + 32) as char else s[i])
  }

  /** `s.rstrip(c)` for one character. */
  function RStrip(s: string, c: char): string
    decreases |s|
  {
    if |s| > 0 && s[|s| - 1] == c then RStrip(s[..|s| - 1], c) else s
  }

  /** The characters for which Python's `str.isspace()` holds. */
  predicate IsSpace(c: char) {
    ('\t' <= c <= '\r') || ('\U{1c}' <= c <= ' ') || c == '\U{85}' || c == '\U{a0}' || c == '\U{1680}'
    || ('\U{2000}' <= c <= '\U{200a}') || c == '\U{2028}' || c == '\U{2029}' || c == '\U{202f}'
    || c == '\U{205f}' || c == '\U{3000}'
  }

  function LStripSpace(s: string): string
    decreases |s|
  {
    if |s| > 0 && IsSpace(s[0]) then LStripSpace(s[1..]) else s
  }

  function RStripSpace(s: string): string
    decreases |s|
  {
    if |s| > 0 && IsSpace(s[|s| - 1]) then RStripSpace(s[..|s| - 1]) else s
  }

  /** `s.strip()` with no argument. */
  function Strip(s: string): string {
    RStripSpace(LStripSpace(s))
  }

  /** `s.split(sep)` for a one-character separator: never empty, "" gives [""], and no part holds the separator. */
  function Split(s: string, sep: char): (parts: seq<string>)
    ensures |parts| >= 1
    ensures forall i :: 0 <= i < |parts| ==> sep !in parts[i]
    decreases |s|
  {
    if |s| == 0 then [""]
    else
      var rest := Split(s[1..], sep);
      if s[0] == sep then [""] + rest else [[s[0]] + rest[0]] + rest[1..]
  }

  /** `sep.join(parts)`. */
  function Join(parts: seq<string>, sep: string): string {
    if |parts| == 0 then ""
    else if |parts| == 1 then parts[0]
    else Join(parts[..|parts| - 1], sep) + sep + parts[|parts| - 1]
  }

  /** The prefix of `s` before its first `c`: `s.split(c)[0]`. */
  function BeforeFirst(s: string, c: char): string
    decreases |s|
  {
    if |s| == 0 || s[0] == c then "" else [s[0]] + BeforeFirst(s[1..], c)
  }

  /** `s.rfind(c)`: the index of the last `c`, or -1. */
  function LastIndexOf(s: string, c: char): (r: int)
    ensures -1 <= r < |s|
    ensures r >= 0 ==> s[r] == c
    ensures forall k :: r < k < |s| ==> s[k] != c
    decreases |s|
  {
    if |s| == 0 then -1
    else if s[|s| - 1] == c then |s| - 1
    else LastIndexOf(s[..|s| - 1], c)
  }

  predicate HasNonDotIn(s: string, from: int, to: int)
    requires 0 <= from && to <= |s|
  {
    exists k :: from <= k < to && s[k] != '.'
  }

  /**
   * `os.path.splitext(p)` on POSIX: the extension starts at the last dot
   * after the last slash, provided that dot is preceded, within the last
   * path component, by some character other than a dot.
   */
  function SplitExt(p: string): (string, string) {
    var sepIndex := LastIndexOf(p, '/');
    var dotIndex := LastIndexOf(p, '.');
    if sepIndex < dotIndex && HasNonDotIn(p, sepIndex + 1, dotIndex) then (p[..dotIndex], p[dotIndex..])
    else (p, "")
  }

  /** `os.path.join(a, b)` on POSIX. */
  function PathJoin(a: string, b: string): string {
    if StartsWith(b, "/") then b
    else if a == "" || EndsWith(a, "/") then a + b
    else a + "/" + b
  }

  predicate IsDigit(c: char) {
    '0' <= c <= '9'
  }

  function DigitChar(d: nat): char
    requires d < 10
  {
    (d + '0' as int) as char
  }

  /** f"{n}" for a natural number. */
  function Decimal(n: nat): string
    decreases n
  {
    if n < 10 then [DigitChar(n)] else Decimal(n / 10) + [DigitChar(n % 10)]
  }

  /** f"{i}" for any integer. */
  function IntToString(i: int): string {
    if i < 0 then "-" + Decimal(-i) else Decimal(i)
  }

  // ---------------------------------------------------------------------
  // Lemmas
  // ---------------------------------------------------------------------

  lemma {:induction false} DecimalShape(n: nat)
    ensures |Decimal(n)| >= 1
    ensures n >= 10 ==> |Decimal(n)| >= 2
    ensures forall k :: 0 <= k < |Decimal(n)| ==> IsDigit(Decimal(n)[k])
    decreases n
  {
    if n >= 10 {
      DecimalShape(n / 10);
    }
  }

  /** Different numbers are printed differently. */
  lemma {:induction false} DecimalInjective(a: nat, b: nat)
    requires Decimal(a) == Decimal(b)
    ensures a == b
    decreases a
  {
    DecimalShape(a);
    DecimalShape(b);
    var da, db := Decimal(a), Decimal(b);
    if a < 10 && b < 10 {
      assert da[0] == db[0];
    } else if a >= 10 && b >= 10 {
      assert da[..|da| - 1] == Decimal(a / 10);
      assert db[..|db| - 1] == Decimal(b / 10);
      DecimalInjective(a / 10, b / 10);
      assert da[|da| - 1] == DigitChar(a % 10);
      assert db[|db| - 1] == DigitChar(b % 10);
    }
  }

  /** f"{i}" starts with a minus sign exactly for negative numbers. */
  lemma IntToStringSign(i: int)
    ensures |IntToString(i)| > 0
    ensures IntToString(i)[0] == '-' <==> i < 0
  {
    DecimalShape(if i < 0 then -i else i);
    if i >= 0 {
      assert IsDigit(Decimal(i)[0]);
    }
  }

  /** f"{i}" is injective on all integers. */
  lemma IntToStringInjective(a: int, b: int)
    requires IntToString(a) == IntToString(b)
    ensures a == b
  {
    IntToStringSign(a);
    IntToStringSign(b);
    if a < 0 && b < 0 {
      assert IntToString(a)[1..] == Decimal(-a) && IntToString(b)[1..] == Decimal(-b);
      DecimalInjective(-a, -b);
    } else {
      DecimalInjective(a, b);
    }
  }

  /** A common suffix can be cancelled. */
  lemma CancelSuffix(x: string, y: string, suffix: string)
    requires x + suffix == y + suffix
    ensures x == y
  {
    assert |x| == |y|;
    assert x == (x + suffix)[..|x|];
    assert y == (y + suffix)[..|y|];
  }

  /** A common prefix can be cancelled. */
  lemma CancelPrefix(prefix: string, x: string, y: string)
    requires prefix + x == prefix + y
    ensures x == y
  {
    assert x == (prefix + x)[|prefix|..];
    assert y == (prefix + y)[|prefix|..];
  }

  /** Joining names onto a fixed folder is injective among names that are all absolute or all relative. */
  lemma PathJoinInjective(folder: string, x: string, y: string)
    requires StartsWith(x, "/") <==> StartsWith(y, "/")
    requires PathJoin(folder, x) == PathJoin(folder, y)
    ensures x == y
  {
    if StartsWith(x, "/") {
    } else if folder == "" || EndsWith(folder, "/") {
      CancelPrefix(folder, x, y);
    } else {
      assert folder + "/" + x == (folder + "/") + x;
      assert folder + "/" + y == (folder + "/") + y;
      CancelPrefix(folder + "/", x, y);
    }
  }

  /** Numbered names `prefix + f"{i}" + suffix` never collide. */
  lemma NumberedNameInjective(prefix: string, a: int, b: int, suffix: string)
    requires prefix + IntToString(a) + suffix == prefix + IntToString(b) + suffix
    ensures a == b
  {
    assert prefix + IntToString(a) + suffix == prefix + (IntToString(a) + suffix);
    assert prefix + IntToString(b) + suffix == prefix + (IntToString(b) + suffix);
    CancelPrefix(prefix, IntToString(a) + suffix, IntToString(b) + suffix);
    CancelSuffix(IntToString(a), IntToString(b), suffix);
    IntToStringInjective(a, b);
  }

  /** Joining `x` before a non-empty list puts one separator between them. */
  lemma {:induction false} JoinCons(x: string, parts: seq<string>, sep: string)
    requires |parts| > 0
    ensures Join([x] + parts, sep) == x + sep + Join(parts, sep)
    decreases |parts|
  {
    var xs := [x] + parts;
    if |parts| == 1 {
      assert xs[..1] == [x];
    } else {
      var front := parts[..|parts| - 1];
      JoinCons(x, front, sep);
      assert xs[..|xs| - 1] == [x] + front;
    }
  }

  /** Joining the parts of a split with its separator gives back the string. */
  lemma {:induction false} SplitJoin(s: string, sep: char)
    ensures Join(Split(s, sep), [sep]) == s
    decreases |s|
  {
    if |s| == 0 {
      assert Split(s, sep) == [""];
    } else {
      var rest := Split(s[1..], sep);
      SplitJoin(s[1..], sep);
      assert s == [s[0]] + s[1..];
      if s[0] == sep {
        assert Split(s, sep) == [""] + rest;
        JoinEmptyFront(rest, [sep]);
      } else {
        assert Split(s, sep) == [[s[0]] + rest[0]] + rest[1..];
        JoinExtendFront(s[0], rest, [sep]);
      }
    }
  }

  /** An empty first part contributes only its separator. */
  lemma JoinEmptyFront(rest: seq<string>, sep: string)
    requires |rest| >= 1
    ensures Join([""] + rest, sep) == sep + Join(rest, sep)
  {
    JoinCons("", rest, sep);
    assert "" + sep == sep;
  }

  /** A character put in front of the first part comes first in the join. */
  lemma JoinExtendFront(c: char, rest: seq<string>, sep: string)
    requires |rest| >= 1
    ensures Join([[c] + rest[0]] + rest[1..], sep) == [c] + Join(rest, sep)
  {
    var head := [c] + rest[0];
    if |rest| == 1 {
      assert [head] + rest[1..] == [head];
    } else {
      assert [rest[0]] + rest[1..] == rest;
      JoinCons(rest[0], rest[1..], sep);
      JoinCons(head, rest[1..], sep);
      assert head + sep + Join(rest[1..], sep) == [c] + (rest[0] + sep + Join(rest[1..], sep));
    }
  }

  /** Extending a non-empty list extends its join by the separator and the new part. */
  lemma JoinSnoc(parts: seq<string>, sep: string, last: string)
    requires |parts| > 0
    ensures Join(parts + [last], sep) == Join(parts, sep) + sep + last
  {
    assert (parts + [last])[..|parts|] == parts;
  }

  /** `strip()` leaves no surrounding white space. */
  lemma {:induction false} StripTrims(s: string)
    ensures |Strip(s)| > 0 ==> !IsSpace(Strip(s)[0]) && !IsSpace(Strip(s)[|Strip(s)| - 1])
  {
    LStripTrims(s);
    RStripKeepsFront(LStripSpace(s));
    RStripTrims(LStripSpace(s));
  }

  lemma {:induction false} LStripTrims(s: string)
    ensures |LStripSpace(s)| > 0 ==> !IsSpace(LStripSpace(s)[0])
    decreases |s|
  {
    if |s| > 0 && IsSpace(s[0]) {
      LStripTrims(s[1..]);
    }
  }

  lemma {:induction false} RStripTrims(s: string)
    ensures |RStripSpace(s)| > 0 ==> !IsSpace(RStripSpace(s)[|RStripSpace(s)| - 1])
    decreases |s|
  {
    if |s| > 0 && IsSpace(s[|s| - 1]) {
      RStripTrims(s[..|s| - 1]);
    }
  }

  lemma {:induction false} RStripKeepsFront(s: string)
    ensures |RStripSpace(s)| <= |s|
    ensures RStripSpace(s) == s[..|RStripSpace(s)|]
    ensures |RStripSpace(s)| > 0 ==> RStripSpace(s)[0] == s[0]
    decreases |s|
  {
    if |s| > 0 && IsSpace(s[|s| - 1]) {
      RStripKeepsFront(s[..|s| - 1]);
    }
  }

  /** `s.split(c)[0]` is a prefix of `s` holding no `c`, cut exactly at the first `c` if there is one. */
  lemma {:induction false} BeforeFirstFacts(s: string, c: char)
    ensures |BeforeFirst(s, c)| <= |s|
    ensures BeforeFirst(s, c) == s[..|BeforeFirst(s, c)|]
    ensures forall k :: 0 <= k < |BeforeFirst(s, c)| ==> BeforeFirst(s, c)[k] != c
    ensures |BeforeFirst(s, c)| < |s| ==> s[|BeforeFirst(s, c)|] == c
    decreases |s|
  {
    if |s| > 0 && s[0] != c {
      BeforeFirstFacts(s[1..], c);
    }
  }

  /**
   * `os.path.splitext` splits without losing anything, and the extension is
   * either empty or a dot followed by characters that are neither dots nor
   * slashes.
   */
  lemma SplitExtShape(p: string)
    ensures SplitExt(p).0 + SplitExt(p).1 == p
    ensures SplitExt(p).1 != "" ==> SplitExt(p).1[0] == '.'
    ensures forall k :: 0 < k < |SplitExt(p).1| ==> SplitExt(p).1[k] != '.' && SplitExt(p).1[k] != '/'
  {
  }

  /** f"{i}" is made of digits and a leading minus sign only: no dot, no slash. */
  lemma IntToStringChars(i: int)
    ensures forall k :: 0 <= k < |IntToString(i)| ==> IsDigit(IntToString(i)[k]) || IntToString(i)[k] == '-'
  {
    var n := if i < 0 then -i else i;
    DecimalShape(n);
    if i < 0 {
      assert forall k :: 1 <= k < |IntToString(i)| ==> IntToString(i)[k] == Decimal(n)[k - 1];
    }
  }

  /** Two words without dots, each followed by something starting with a dot, are equal when the wholes are. */
  lemma CancelBeforeDot(x: string, s: string, y: string, t: string)
    requires forall k :: 0 <= k < |x| ==> x[k] != '.'
    requires forall k :: 0 <= k < |y| ==> y[k] != '.'
    requires |s| > 0 && s[0] == '.'
    requires |t| > 0 && t[0] == '.'
    requires x + s == y + t
    ensures x == y
  {
    assert x == (x + s)[..|x|];
    assert y == (y + t)[..|y|];
  }
}
