/**
 * The parts of Python's `str` that the server relies on: `strip()`, `lower()`,
 * `split(sep)` and the conversion `int(s)` of a decimal string.
 */
module Text {
  import opened Options

  /** `str.isspace()` for one character: the characters Python strips. */
  predicate IsSpace(c: char)
  {
    || '\t' <= c <= '\r'
    || '\U{1C}' <= c <= ' '
    || c == '\U{85}' || c == '\U{A0}' || c == '\U{1680}'
    || '\U{2000}' <= c <= '\U{200A}'
    || c == '\U{2028}' || c == '\U{2029}' || c == '\U{202F}' || c == '\U{205F}'
    || c == '\U{3000}'
  }

  predicate AllSpace(s: string)
  {
    forall k :: 0 <= k < |s| ==> IsSpace(s[k])
  }

  /** True of a string that `strip()` leaves as it is. */
  predicate Trimmed(s: string)
  {
    s == [] || (!IsSpace(s[0]) && !IsSpace(s[|s| - 1]))
  }

  /** `s.lstrip()`. */
  function TrimStart(s: string): (r: string)
    ensures |r| <= |s|
    ensures r == [] || !IsSpace(r[0])
  {
    if s != [] && IsSpace(s[0]) then TrimStart(s[1..]) else s
  }

  /** `s.rstrip()`. */
  function TrimEnd(s: string): (r: string)
    ensures |r| <= |s|
    ensures r == [] || !IsSpace(r[|r| - 1])
  {
    if s != [] && IsSpace(s[|s| - 1]) then TrimEnd(s[..|s| - 1]) else s
  }

  /** `s.strip()`: the string without its leading and trailing whitespace. */
  function Strip(s: string): string
  {
    TrimEnd(TrimStart(s))
  }

  /** Strip leaves no whitespace at either end. */
  lemma StripTrimmed(s: string)
    ensures Trimmed(Strip(s))
  {
    TrimEndIsPrefix(TrimStart(s));
  }

  /** `lstrip` keeps a suffix of its argument. */
  lemma {:induction false} TrimStartIsSuffix(s: string)
    ensures TrimStart(s) == s[|s| - |TrimStart(s)|..]
  {
    if s != [] && IsSpace(s[0]) {
      TrimStartIsSuffix(s[1..]);
    }
  }

  /** `rstrip` keeps a prefix of its argument. */
  lemma {:induction false} TrimEndIsPrefix(s: string)
    ensures TrimEnd(s) == s[..|TrimEnd(s)|]
  {
    if s != [] && IsSpace(s[|s| - 1]) {
      TrimEndIsPrefix(s[..|s| - 1]);
    }
  }

  /** What `lstrip` removes is whitespace. */
  lemma {:induction false} TrimStartDropsSpace(s: string)
    ensures AllSpace(s[..|s| - |TrimStart(s)|])
  {
    if s != [] && IsSpace(s[0]) {
      TrimStartIsSuffix(s[1..]);
      TrimStartDropsSpace(s[1..]);
      var k := |s| - |TrimStart(s)|;
      assert forall m :: 1 <= m < k ==> s[..k][m] == s[1..][..k - 1][m - 1];
    }
  }

  /** What `rstrip` removes is whitespace. */
  lemma {:induction false} TrimEndDropsSpace(s: string)
    ensures AllSpace(s[|TrimEnd(s)|..])
  {
    if s != [] && IsSpace(s[|s| - 1]) {
      var init := s[..|s| - 1];
      TrimEndDropsSpace(init);
      var k := |TrimEnd(s)|;
      assert forall m :: 0 <= m < |s| - 1 - k ==> s[k..][m] == init[k..][m];
    }
  }

  /** What Strip removes is whitespace on either side of its result. */
  lemma StripIsInfix(s: string)
    ensures Trimmed(Strip(s))
    ensures var r := Strip(s);
            exists i :: 0 <= i <= |s| - |r| && s[i..i + |r|] == r && AllSpace(s[..i]) && AllSpace(s[i + |r|..])
  {
    var left := TrimStart(s);
    var r := TrimEnd(left);
    var i := |s| - |left|;
    StripTrimmed(s);
    TrimStartIsSuffix(s);
    TrimEndIsPrefix(left);
    TrimStartDropsSpace(s);
    TrimEndDropsSpace(left);
    assert s[i..i + |r|] == left[..|r|];
    assert s[i + |r|..] == left[|r|..];
    assert AllSpace(s[..i]) && AllSpace(s[i + |r|..]);
  }

  /** `lstrip` removes a whitespace prefix that stops at a non-space character, and nothing else. */
  lemma {:induction false} TrimStartPadded(a: string, w: string)
    requires AllSpace(a)
    requires w == [] || !IsSpace(w[0])
    ensures TrimStart(a + w) == w
  {
    if a != [] {
      assert (a + w)[1..] == a[1..] + w;
      TrimStartPadded(a[1..], w);
    }
  }

  /** `rstrip` removes a whitespace suffix that follows a non-space character, and nothing else. */
  lemma {:induction false} TrimEndPadded(w: string, b: string)
    requires AllSpace(b)
    requires w == [] || !IsSpace(w[|w| - 1])
    ensures TrimEnd(w + b) == w
  {
    if b != [] {
      assert (w + b)[..|w + b| - 1] == w + b[..|b| - 1];
      TrimEndPadded(w, b[..|b| - 1]);
    }
  }

  /** Strip removes exactly the whitespace padding around a trimmed string, and nothing else. */
  lemma StripPadded(a: string, w: string, b: string)
    requires AllSpace(a) && AllSpace(b) && Trimmed(w)
    ensures Strip(a + w + b) == w
  {
    if w == [] {
      assert a + w + b == a + b;
      assert AllSpace(a + b) by {
        forall k | 0 <= k < |a + b| ensures IsSpace((a + b)[k]) {
          if k >= |a| { assert (a + b)[k] == b[k - |a|]; }
        }
      }
      TrimStartPadded(a + b, []);
      assert a + b + [] == a + b;
    } else {
      assert a + w + b == a + (w + b);
      TrimStartPadded(a, w + b);
      TrimEndPadded(w, b);
    }
  }

  /** An all-whitespace string strips to the empty string. */
  lemma StripAllSpace(s: string)
    requires AllSpace(s)
    ensures Strip(s) == []
  {
    StripPadded(s, [], []);
    assert s + [] + [] == s;
  }

  /** ASCII case folding of one character. */
  function LowerChar(c: char): (r: char)
    ensures 'A' <= c <= 'Z' ==> 'a' <= r <= 'z' && r as int - c as int == 32
    ensures !('A' <= c <= 'Z') ==> r == c
  {
    if 'A' <= c <= 'Z' then (c as int + 32) as char else c
  }

  /** `s.lower()`, for the ASCII letters. */
  function Lower(s: string): (r: string)
    ensures |r| == |s|
  {
    if s == [] then [] else [LowerChar(s[0])] + Lower(s[1..])
  }

  /** `s.lower()` folds every character on its own. */
  lemma {:induction false} LowerChars(s: string)
    ensures forall k :: 0 <= k < |s| ==> Lower(s)[k] == LowerChar(s[k])
  {
    if s != [] {
      LowerChars(s[1..]);
      assert forall k :: 1 <= k < |s| ==> Lower(s)[k] == Lower(s[1..])[k - 1];
    }
  }

  /** `sep.join(parts)`, the inverse of `Split`. */
  function Join(parts: seq<string>, sep: char): string
    requires |parts| >= 1
  {
    if |parts| == 1 then parts[0] else parts[0] + [sep] + Join(parts[1..], sep)
  }

  /** `s.split(sep)` for a one-character separator. */
  function Split(s: string, sep: char): (parts: seq<string>)
    ensures |parts| >= 1
    ensures forall k :: 0 <= k < |parts| ==> sep !in parts[k]
    ensures sep in s <==> |parts| >= 2
  {
    if s == [] then [[]]
    else
      var rest := Split(s[1..], sep);
      if s[0] == sep then [[]] + rest
      else [[s[0]] + rest[0]] + rest[1..]
  }

  /** A character put in front of the first part is put in front of the joined string. */
  lemma JoinCons(c: char, parts: seq<string>, sep: char)
    requires |parts| >= 1
    ensures Join([[c] + parts[0]] + parts[1..], sep) == [c] + Join(parts, sep)
  {
    var longer := [[c] + parts[0]] + parts[1..];
    if |parts| >= 2 {
      assert longer[1..] == parts[1..];
    }
  }

  /** Round trip: joining the parts of a split gives the string back. */
  lemma {:induction false} JoinSplit(s: string, sep: char)
    ensures Join(Split(s, sep), sep) == s
  {
    if s != [] {
      var rest := Split(s[1..], sep);
      JoinSplit(s[1..], sep);
      assert s == [s[0]] + s[1..];
      if s[0] == sep {
        assert Split(s, sep)[1..] == rest;
      } else {
        JoinCons(s[0], rest, sep);
      }
    }
  }

  /** A string without the separator splits into itself alone. */
  lemma {:induction false} SplitWithoutSeparator(s: string, sep: char)
    requires sep !in s
    ensures Split(s, sep) == [s]
  {
    if s != [] {
      SplitWithoutSeparator(s[1..], sep);
      assert s == [s[0]] + s[1..];
    }
  }

  /** Splitting at the first separator: the part before it comes first, the rest is split on its own. */
  lemma {:induction false} SplitAtSeparator(a: string, b: string, sep: char)
    requires sep !in a
    ensures Split(a + [sep] + b, sep) == [a] + Split(b, sep)
  {
    if a == [] {
      assert ([] + [sep] + b)[1..] == b;
    } else {
      assert (a + [sep] + b)[1..] == a[1..] + [sep] + b;
      SplitAtSeparator(a[1..], b, sep);
      assert [a[0]] + a[1..] == a;
    }
  }

  /** Round trip: splitting a joined list of separator-free parts gives the parts back. */
  lemma {:induction false} SplitJoin(parts: seq<string>, sep: char)
    requires |parts| >= 1
    requires forall k :: 0 <= k < |parts| ==> sep !in parts[k]
    ensures Split(Join(parts, sep), sep) == parts
  {
    if |parts| == 1 {
      SplitWithoutSeparator(parts[0], sep);
    } else {
      SplitJoin(parts[1..], sep);
      SplitAtSeparator(parts[0], Join(parts[1..], sep), sep);
      assert [parts[0]] + parts[1..] == parts;
    }
  }

  predicate IsDigit(c: char)
  {
    '0' <= c <= '9'
  }

  function DigitValue(c: char): (d: nat)
    requires IsDigit(c)
    ensures d < 10
  {
    c as int - '0' as int
  }

  function DigitChar(d: nat): (c: char)
    requires d < 10
    ensures IsDigit(c) && DigitValue(c) == d
  {
    ('0' as int + d) as char
  }

  predicate AllDigits(s: string)
  {
    forall k :: 0 <= k < |s| ==> IsDigit(s[k])
  }

  /**
   * The digit part that `int()` accepts in base ten: one or more ASCII digits,
   * with single underscores allowed between two digits.
   */
  predicate DigitGroups(d: string)
    decreases |d|
  {
    && |d| >= 1
    && IsDigit(d[0])
    && (|d| == 1 || if d[1] == '_' then |d| >= 3 && DigitGroups(d[2..]) else DigitGroups(d[1..]))
  }

  /** The digits of `d` without the separating underscores. */
  function Ungrouped(d: string): (r: string)
    requires DigitGroups(d)
    ensures AllDigits(r) && |r| >= 1
    decreases |d|
  {
    if |d| == 1 then d
    else if d[1] == '_' then [d[0]] + Ungrouped(d[2..])
    else [d[0]] + Ungrouped(d[1..])
  }

  /** The number a string of decimal digits denotes. */
  function DecimalValue(ds: string): nat
    requires AllDigits(ds)
  {
    if ds == [] then 0 else DecimalValue(ds[..|ds| - 1]) * 10 + DigitValue(ds[|ds| - 1])
  }

  /**
   * The most digits `int()` converts in base ten: CPython's default for
   * `sys.get_int_max_str_digits()`. Longer numerals raise `ValueError`.
   */
  const MaxStrDigits: nat := 4300

  /** Digit groups holding at most `MaxStrDigits` digits, and the number they denote. */
  function ParseDigits(d: string): Option<nat>
  {
    if DigitGroups(d) && |Ungrouped(d)| <= MaxStrDigits then Some(DecimalValue(Ungrouped(d))) else None
  }

  /** A sign, if any, and digit groups: what `int()` accepts once the whitespace is stripped. */
  function ParseSigned(t: string): Option<int>
  {
    if t != [] && (t[0] == '+' || t[0] == '-') then
      match ParseDigits(t[1..])
      case None => None
      case Some(n) => Some(if t[0] == '-' then -(n as int) else n)
    else
      match ParseDigits(t)
      case None => None
      case Some(n) => Some(n)
  }

  /**
   * The four ASCII information separators U+001C to U+001F. `str.isspace`
   * counts them as whitespace, but `int()` skips only the ASCII whitespace
   * " \t\n\v\f\r" and the non-ASCII whitespace, so to `int()` they are
   * neither whitespace nor digits.
   */
  predicate IsInfoSeparator(c: char)
  {
    '\U{1C}' <= c <= '\U{1F}'
  }

  /** The whitespace `int()` accepts around a numeral. */
  predicate IsIntSpace(c: char)
  {
    IsSpace(c) && !IsInfoSeparator(c)
  }

  predicate AllIntSpace(s: string)
  {
    forall k :: 0 <= k < |s| ==> IsIntSpace(s[k])
  }

  /**
   * `int(s)`: surrounding whitespace, an optional sign, then digit groups.
   * `None` is the `ValueError` that `int()` raises on anything else. An
   * information separator can be neither whitespace nor part of the numeral,
   * so a string holding one is rejected wherever it stands; without one,
   * `int()`'s whitespace and `strip()`'s agree.
   */
  function ParseInt(s: string): Option<int>
  {
    if exists c :: c in s && IsInfoSeparator(c) then None
    else ParseSigned(Strip(s))
  }

  /** `int()` rejects the empty string and one made only of whitespace. */
  lemma ParseBlank(s: string)
    requires AllSpace(s)
    ensures ParseInt(s) == None
  {
    StripAllSpace(s);
  }

  /** `int()` rejects every string that holds an information separator, at either end or inside. */
  lemma ParseRejectsInfoSeparator(s: string, k: nat)
    requires k < |s| && IsInfoSeparator(s[k])
    ensures ParseInt(s) == None
  {
    assert s[k] in s;
  }

  /** `str(n)` for a natural number: its shortest decimal representation. */
  function ShowNat(n: nat): (r: string)
    ensures |r| >= 1 && AllDigits(r)
  {
    if n < 10 then [DigitChar(n)] else ShowNat(n / 10) + [DigitChar(n % 10)]
  }

  /** `str(n)` for any integer. */
  function Show(n: int): string
  {
    if n < 0 then "-" + ShowNat(-n) else ShowNat(n)
  }

  lemma {:induction false} ShowNatValue(n: nat)
    ensures DecimalValue(ShowNat(n)) == n
  {
    if n >= 10 {
      ShowNatValue(n / 10);
      var s := ShowNat(n);
      assert s[..|s| - 1] == ShowNat(n / 10);
    }
  }

  /** A string of digits is a single digit group and loses nothing to `Ungrouped`. */
  lemma {:induction false} DigitsAreGroups(d: string)
    requires |d| >= 1 && AllDigits(d)
    ensures DigitGroups(d) && Ungrouped(d) == d
    decreases |d|
  {
    if |d| > 1 {
      DigitsAreGroups(d[1..]);
      assert [d[0]] + d[1..] == d;
    }
  }

  /** The number of digits of `n` in decimal. */
  function NumeralLength(n: int): nat
  {
    |ShowNat(if n < 0 then -n else n)|
  }

  /** `str(n)` is made of digits and, for a negative `n`, a leading minus sign. */
  lemma ShowChars(n: int)
    ensures forall k :: 0 <= k < |Show(n)| ==> (Show(n)[k] == '-' && k == 0 && n < 0) || IsDigit(Show(n)[k])
  {
    if n < 0 {
      var s := Show(n);
      assert s == "-" + ShowNat(-n);
      assert forall k :: 1 <= k < |s| ==> s[k] == ShowNat(-n)[k - 1];
    }
  }

  /** `int()` reads back what `str()` writes for a natural number within the digit limit. */
  lemma ParseSignedShowNat(m: nat)
    requires NumeralLength(m) <= MaxStrDigits
    ensures ParseSigned(ShowNat(m)) == Some(m)
  {
    var d := ShowNat(m);
    ShowNatValue(m);
    DigitsAreGroups(d);
    assert IsDigit(d[0]);
  }

  /** ... and for a negative one, written with a leading minus sign. */
  lemma ParseSignedShowNegative(m: nat)
    requires NumeralLength(m) <= MaxStrDigits
    ensures ParseSigned("-" + ShowNat(m)) == Some(-(m as int))
  {
    var d := ShowNat(m);
    var t := "-" + d;
    ShowNatValue(m);
    DigitsAreGroups(d);
    assert ParseDigits(d) == Some(m);
    assert t[0] == '-' && t[1..] == d;
  }

  lemma ParseSignedShow(n: int)
    requires NumeralLength(n) <= MaxStrDigits
    ensures ParseSigned(Show(n)) == Some(n)
  {
    if n < 0 {
      ParseSignedShowNegative(-n);
    } else {
      ParseSignedShowNat(n);
    }
  }

  /** A numeral with more digits than the limit is rejected, whatever its sign. */
  lemma ParseSignedShowTooLong(n: int)
    requires NumeralLength(n) > MaxStrDigits
    ensures ParseSigned(Show(n)) == None
  {
    var d := ShowNat(if n < 0 then -n else n);
    DigitsAreGroups(d);
    assert IsDigit(d[0]);
    if n < 0 {
      var t := "-" + d;
      assert t[0] == '-' && t[1..] == d;
    }
  }

  /** A numeral with `int()`'s whitespace around it has no information separator in it. */
  lemma NoInfoSeparator(a: string, n: int, b: string)
    requires AllIntSpace(a) && AllIntSpace(b)
    ensures !exists c :: c in a + Show(n) + b && IsInfoSeparator(c)
  {
    var s := a + Show(n) + b;
    ShowChars(n);
    forall k | 0 <= k < |s| ensures !IsInfoSeparator(s[k]) {
      if k < |a| {
        assert s[k] == a[k];
      } else if k < |a| + |Show(n)| {
        assert s[k] == Show(n)[k - |a|];
      } else {
        assert s[k] == b[k - |a| - |Show(n)|];
      }
    }
  }

  /**
   * Round trip: `int()` reads back what `str()` writes, also with `int()`'s
   * whitespace around it, as long as the numeral is within the digit limit.
   */
  lemma ParseShow(a: string, n: int, b: string)
    requires AllIntSpace(a) && AllIntSpace(b)
    requires NumeralLength(n) <= MaxStrDigits
    ensures ParseInt(a + Show(n) + b) == Some(n)
  {
    var w := Show(n);
    NoInfoSeparator(a, n, b);
    assert !IsSpace(w[0]) && !IsSpace(w[|w| - 1]);
    StripPadded(a, w, b);
    ParseSignedShow(n);
  }

  /** Beyond the digit limit `int()` raises instead, with or without whitespace around. */
  lemma ParseShowTooLong(a: string, n: int, b: string)
    requires AllIntSpace(a) && AllIntSpace(b)
    requires NumeralLength(n) > MaxStrDigits
    ensures ParseInt(a + Show(n) + b) == None
  {
    var w := Show(n);
    NoInfoSeparator(a, n, b);
    assert !IsSpace(w[0]) && !IsSpace(w[|w| - 1]);
    StripPadded(a, w, b);
    ParseSignedShowTooLong(n);
  }
}
