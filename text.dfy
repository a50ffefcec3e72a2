/** Character and string helpers shared by the model: Python's `str.strip`, `str.join`, `str(int)`,
    `int(str)` and `in` on strings, and the ASCII subset of `str.isdigit` and `str.lower`. */
module Text {
  import opened Wrappers

  predicate IsDigit(c: char) {
    '0' <= c <= '9'
  }

  predicate IsUpper(c: char) {
    'A' <= c <= 'Z'
  }

  predicate IsLower(c: char) {
    'a' <= c <= 'z'
  }

  predicate IsLetter(c: char) {
    IsUpper(c) || IsLower(c)
  }

  /** The characters `str.isspace()` accepts and `str.strip()` removes: the ASCII controls
      \t, \n, \v, \f, \r, the separators \x1c to \x1f, the space, and the Unicode spaces
      U+0085, U+00A0, U+1680, U+2000 to U+200A, U+2028, U+2029, U+202F, U+205F and U+3000. */
  predicate IsSpace(c: char) {
    || c == ' '
    || ('\t' <= c <= '\r')
    || ('\U{001C}' <= c <= '\U{001F}')
    || c == '\U{0085}' || c == '\U{00A0}' || c == '\U{1680}'
    || ('\U{2000}' <= c <= '\U{200A}')
    || c == '\U{2028}' || c == '\U{2029}' || c == '\U{202F}' || c == '\U{205F}' || c == '\U{3000}'
  }

  function ToLower(c: char): (r: char)
    ensures IsLetter(c) ==> IsLower(r)
    ensures !IsUpper(c) ==> r == c
    ensures IsLower(r) ==> IsLetter(c)
  {
    if IsUpper(c) then (c as int + 32) as char else c
  }

  function ToUpper(c: char): (r: char)
    ensures IsLetter(c) ==> IsUpper(r)
    ensures !IsLower(c) ==> r == c
  {
    if IsLower(c) then (c as int - 32) as char else c
  }

  /** `s.lower()` */
  function Lower(s: string): (r: string)
    ensures |r| == |s|
    ensures forall i :: 0 <= i < |s| ==> r[i] == ToLower(s[i])
  {
    if s == [] then [] else [ToLower(s[0])] + Lower(s[1..])
  }

  /** `piece` stands in `s` from offset `i` on: the shape of an f-string's fields. */
  predicate Occurs(s: string, i: int, piece: string) {
    0 <= i && i + |piece| <= |s| && s[i..i + |piece|] == piece
  }

  /** Appending text keeps every piece of `a` where it stands, and puts `b` right after `a`. */
  lemma OccursGrow(a: string, b: string)
    ensures forall i, piece {:trigger Occurs(a, i, piece)} :: Occurs(a, i, piece) ==> Occurs(a + b, i, piece)
    ensures Occurs(a + b, |a|, b)
  {
  }

  /** The seven pieces of `a + b + c + d + e + f + g` stand one after another. */
  lemma SevenPiecesInPlace(a: string, b: string, c: string, d: string, e: string, f: string, g: string)
    ensures var r := a + b + c + d + e + f + g;
      && |r| == |a| + |b| + |c| + |d| + |e| + |f| + |g|
      && Occurs(r, 0, a) && Occurs(r, |a|, b) && Occurs(r, |a| + |b|, c)
      && Occurs(r, |a| + |b| + |c|, d) && Occurs(r, |a| + |b| + |c| + |d|, e)
      && Occurs(r, |a| + |b| + |c| + |d| + |e|, f) && Occurs(r, |a| + |b| + |c| + |d| + |e| + |f|, g)
  {
    OccursGrow(a, b);
    OccursGrow(a + b, c);
    OccursGrow(a + b + c, d);
    OccursGrow(a + b + c + d, e);
    OccursGrow(a + b + c + d + e, f);
    OccursGrow(a + b + c + d + e + f, g);
    assert Occurs(a, 0, a);
  }

  /** Nine pieces one after another: each stands at the sum of the lengths before it. */
  lemma NinePiecesInPlace(a: string, b: string, c: string, d: string, e: string, f: string, g: string,
                          h: string, i: string)
    ensures var r := a + b + c + d + e + f + g + h + i;
      && |r| == |a| + |b| + |c| + |d| + |e| + |f| + |g| + |h| + |i|
      && Occurs(r, 0, a) && Occurs(r, |a|, b) && Occurs(r, |a| + |b|, c)
      && Occurs(r, |a| + |b| + |c|, d) && Occurs(r, |a| + |b| + |c| + |d|, e)
      && Occurs(r, |a| + |b| + |c| + |d| + |e|, f) && Occurs(r, |a| + |b| + |c| + |d| + |e| + |f|, g)
      && Occurs(r, |a| + |b| + |c| + |d| + |e| + |f| + |g|, h)
      && Occurs(r, |a| + |b| + |c| + |d| + |e| + |f| + |g| + |h|, i)
  {
    SevenPiecesInPlace(a, b, c, d, e, f, g);
    OccursGrow(a + b + c + d + e + f + g, h);
    OccursGrow(a + b + c + d + e + f + g + h, i);
  }

  /** Every character of `s` is a digit, and there is at least one: `s.isdigit()`. */
  predicate IsDigitString(s: string) {
    |s| > 0 && forall i :: 0 <= i < |s| ==> IsDigit(s[i])
  }

  /** The digit characters of `s`, in order: `"".join(re.findall(r"\d", s))`. */
  function Digits(s: string): (r: string)
    ensures |r| <= |s|
    ensures forall i :: 0 <= i < |r| ==> IsDigit(r[i])
  {
    if s == [] then []
    else if IsDigit(s[0]) then [s[0]] + Digits(s[1..])
    else Digits(s[1..])
  }

  lemma {:induction false} DigitsOfDigitString(s: string)
    requires forall i :: 0 <= i < |s| ==> IsDigit(s[i])
    ensures Digits(s) == s
  {
    if s != [] {
      DigitsOfDigitString(s[1..]);
    }
  }

  function StripLeft(s: string): (r: string)
    ensures |r| <= |s| && r == s[|s| - |r|..]
    ensures r == [] || !IsSpace(r[0])
    ensures forall i :: 0 <= i < |s| - |r| ==> IsSpace(s[i])
  {
    if s != [] && IsSpace(s[0]) then StripLeft(s[1..]) else s
  }

  function StripRight(s: string): (r: string)
    ensures |r| <= |s| && r == s[..|r|]
    ensures r == [] || !IsSpace(r[|r| - 1])
    ensures forall i :: |r| <= i < |s| ==> IsSpace(s[i])
  {
    if s != [] && IsSpace(s[|s| - 1]) then StripRight(s[..|s| - 1]) else s
  }

  /** `s.strip()`: the longest infix of `s` that neither starts nor ends with whitespace. */
  function Strip(s: string): (r: string)
    ensures |r| <= |s|
    ensures r == [] || (!IsSpace(r[0]) && !IsSpace(r[|r| - 1]))
  {
    StripRight(StripLeft(s))
  }

  /** A string that is whitespace only, or empty, strips to nothing. */
  predicate IsBlank(s: string) {
    forall i :: 0 <= i < |s| ==> IsSpace(s[i])
  }

  lemma {:induction false} StripEmptyIffBlank(s: string)
    ensures Strip(s) == [] <==> IsBlank(s)
  {
    var l := StripLeft(s);
    if l == [] {
      assert IsBlank(s);
    } else {
      assert !IsSpace(s[|s| - |l|]);
    }
  }

  /** `sep.join(xs)` */
  function Join(xs: seq<string>, sep: string): string {
    if xs == [] then []
    else if |xs| == 1 then xs[0]
    else xs[0] + sep + Join(xs[1..], sep)
  }

  lemma {:induction false} JoinSnoc(xs: seq<string>, x: string, sep: string)
    requires xs != []
    ensures Join(xs + [x], sep) == Join(xs, sep) + sep + x
  {
    if |xs| == 1 {
      assert xs + [x] == [xs[0], x];
    } else {
      assert (xs + [x])[1..] == xs[1..] + [x];
      JoinSnoc(xs[1..], x, sep);
    }
  }

  /** `sub in s` for strings: `sub` occurs in `s` as a contiguous infix. */
  predicate Contains(s: string, sub: string)
    decreases |s|
  {
    (|sub| <= |s| && s[..|sub|] == sub) || (s != [] && Contains(s[1..], sub))
  }

  /** A one-character infix is just a character of the string. */
  lemma {:induction false} ContainsChar(s: string, c: char)
    ensures Contains(s, [c]) <==> c in s
  {
    if s != [] {
      ContainsChar(s[1..], c);
      assert s == [s[0]] + s[1..];
    }
  }

  /** Whatever contains `sub` contains every character of `sub`. */
  lemma {:induction false} ContainsInfixChar(s: string, sub: string, k: nat)
    requires k < |sub|
    requires Contains(s, sub)
    ensures sub[k] in s
  {
    if |sub| <= |s| && s[..|sub|] == sub {
      assert s[k] == sub[k];
    } else {
      ContainsInfixChar(s[1..], sub, k);
    }
  }

  function DigitChar(d: nat): (c: char)
    requires d < 10
    ensures IsDigit(c)
  {
    ('0' as int + d) as char
  }

  function DigitValue(c: char): (d: nat)
    requires IsDigit(c)
    ensures d < 10 && DigitChar(d) == c
  {
    c as int - '0' as int
  }

  /** The number a string of digits denotes (`int(s)` for a digit string; 0 for ""). */
  function DigitsValue(s: string): (n: nat)
    requires forall i :: 0 <= i < |s| ==> IsDigit(s[i])
  {
    if s == [] then 0 else DigitsValue(s[..|s| - 1]) * 10 + DigitValue(s[|s| - 1])
  }

  /** `str(n)` for a natural number. */
  function NatToString(n: nat): (s: string)
    ensures |s| > 0
    ensures forall i :: 0 <= i < |s| ==> IsDigit(s[i])
  {
    if n < 10 then [DigitChar(n)] else NatToString(n / 10) + [DigitChar(n % 10)]
  }

  /** `str(i)` for an integer. */
  function IntToString(i: int): (s: string)
    ensures |s| > 0
  {
    if i < 0 then "-" + NatToString(-i) else NatToString(i)
  }

  /** Reading back what `str(n)` wrote gives `n`. */
  lemma {:induction false} NatToStringRoundTrip(n: nat)
    ensures DigitsValue(NatToString(n)) == n
  {
    if n >= 10 {
      NatToStringRoundTrip(n / 10);
      var s := NatToString(n);
      assert s[..|s| - 1] == NatToString(n / 10);
    }
  }

  /** Text that neither starts nor ends with whitespace is left alone by `strip()`. */
  lemma StripUnpadded(s: string)
    requires s == [] || (!IsSpace(s[0]) && !IsSpace(s[|s| - 1]))
    ensures Strip(s) == s
  {
    if s != [] {
      assert StripLeft(s) == s;
    }
  }

  lemma StripOfDigits(d: string)
    requires forall i :: 0 <= i < |d| ==> IsDigit(d[i])
    ensures Strip(d) == d
  {
    if d != [] {
      assert !IsSpace(d[0]) && !IsSpace(d[|d| - 1]);
    }
    StripUnpadded(d);
  }

  /** `int(s)` for text: surrounding whitespace, an optional sign, then decimal digits that
      single underscores may separate; anything else raises ValueError. The whitespace
      trimmed here is the full `str.isspace` set, while `int()` trims only ASCII whitespace
      and the Unicode spaces it maps to ' ', so `int("\x1c5")` raises where this gives 5;
      the model only ever parses text that `str()` produced, which has no such character. */
  function ParseInt(s: string): Result<int> {
    IntOfStripped(Strip(s))
  }

  /** The digits of an integer literal, `digit (["_"] digit)*`: an underscore only between two
      digits (`1_000`, but not `_1`, `1_` or `1__0`). */
  predicate IsIntBody(t: string)
    decreases |t|
  {
    && |t| > 0 && IsDigit(t[0])
    && (|t| == 1
        || (IsDigit(t[1]) && IsIntBody(t[1..]))
        || (|t| > 2 && t[1] == '_' && IsIntBody(t[2..])))
  }

  /** `int` once the whitespace is gone: the underscores carry no value. */
  function IntOfStripped(t: string): (r: Result<int>)
    ensures r.Success? <==> IsIntBody(t) || (|t| > 1 && t[0] in "+-" && IsIntBody(t[1..]))
    ensures r.Success? && IsIntBody(t) ==> r.value == DigitsValue(Digits(t))
    ensures r.Success? && t[0] == '-' ==> r.value == 0 - DigitsValue(Digits(t[1..]))
    ensures r.Success? && t[0] == '+' ==> r.value == DigitsValue(Digits(t[1..]))
  {
    if |t| > 1 && t[0] == '-' && IsIntBody(t[1..]) then Success(0 - DigitsValue(Digits(t[1..])))
    else if |t| > 1 && t[0] == '+' && IsIntBody(t[1..]) then Success(DigitsValue(Digits(t[1..])))
    else if IsIntBody(t) then Success(DigitsValue(Digits(t)))
    else Failure("ValueError: invalid literal for int()")
  }

  /** A plain digit string is an integer literal worth its digits. */
  lemma {:induction false} DigitStringIsIntBody(s: string)
    requires IsDigitString(s)
    ensures IsIntBody(s) && DigitsValue(Digits(s)) == DigitsValue(s)
  {
    DigitsOfDigitString(s);
    if |s| > 1 {
      DigitStringIsIntBody(s[1..]);
    }
  }

  lemma NegativeTextRoundTrip(n: nat)
    requires n > 0
    ensures ParseInt("-" + NatToString(n)) == Success(0 - n)
  {
    var d := NatToString(n);
    assert ParseInt("-" + d) == Success(0 - DigitsValue(d)) by {
      NegatedDigits(d);
    }
    assert DigitsValue(d) == n by {
      NatToStringRoundTrip(n);
    }
  }

  /** `int("-" + d)` for a digit string `d`. */
  lemma NegatedDigits(d: string)
    requires IsDigitString(d)
    ensures ParseInt("-" + d) == Success(0 - DigitsValue(d))
  {
    NegatedDigitsUnpadded(d);
    NegatedDigitsValue(d);
  }

  lemma NegatedDigitsUnpadded(d: string)
    requires IsDigitString(d)
    ensures Strip("-" + d) == "-" + d
  {
    var s := "-" + d;
    assert s[0] == '-' && s[|s| - 1] == d[|d| - 1];
    StripUnpadded(s);
  }

  lemma NegatedDigitsValue(d: string)
    requires IsDigitString(d)
    ensures IntOfStripped("-" + d) == Success(0 - DigitsValue(d))
  {
    var s := "-" + d;
    assert s[1..] == d;
    DigitStringIsIntBody(d);
  }

  lemma NaturalTextRoundTrip(n: nat)
    ensures ParseInt(NatToString(n)) == Success(n)
  {
    var s := NatToString(n);
    assert IsDigit(s[0]) && s[0] != '-' && s[0] != '+';
    DigitStringIsIntBody(s);
    NatToStringRoundTrip(n);
    assert IntOfStripped(s) == Success(n);
    StripOfDigits(s);
  }

  /** `int("1_000")` is 1000: the underscore only separates digits. */
  lemma UnderscoreAccepted()
    ensures ParseInt("1_000") == Success(1000)
  {
    var t := "1_000";
    UnderscoredUnpadded();
    UnderscoredBody();
    UnderscoredDigits();
    assert IntOfStripped(t) == Success(DigitsValue(Digits(t)));
  }

  lemma UnderscoredUnpadded()
    ensures Strip("1_000") == "1_000"
  {
    var t := "1_000";
    assert t[0] == '1' && t[4] == '0';
    StripUnpadded(t);
  }

  lemma UnderscoredBody()
    ensures IsIntBody("1_000")
  {
    var t := "1_000";
    assert IsIntBody(t[4..]) && t[2..][1..] == t[3..] && t[3..][1..] == t[4..];
  }

  lemma UnderscoredDigits()
    ensures DigitsValue(Digits("1_000")) == 1000
  {
    var t := "1_000";
    assert t[1..][1..] == "000";
    DigitsOfDigitString("000");
    assert Digits(t) == "1000";
    assert "1000"[..3] == "100" && "100"[..2] == "10" && "10"[..1] == "1";
  }

  /** A doubled underscore makes `int()` raise. */
  lemma DoubledUnderscoreRejected()
    ensures ParseInt("1__000").Failure?
  {
    var t := "1__000";
    assert Strip(t) == t by {
      assert t[0] == '1' && t[5] == '0';
      StripUnpadded(t);
    }
    assert !IsIntBody(t) by {
      assert t[1] == '_' && t[2..][0] == '_';
    }
  }

  /** So does a trailing underscore. */
  lemma TrailingUnderscoreRejected()
    ensures ParseInt("1000_").Failure?
  {
    var t := "1000_";
    assert Strip(t) == t by {
      assert t[0] == '1' && t[4] == '_';
      StripUnpadded(t);
    }
    assert !IsIntBody(t) by {
      assert t[|t| - 1] == '_';
      IntBodyEndsWithDigit(t);
    }
  }

  /** An integer literal ends with a digit. */
  lemma {:induction false} IntBodyEndsWithDigit(t: string)
    ensures IsIntBody(t) ==> IsDigit(t[|t| - 1])
    decreases |t|
  {
    if IsIntBody(t) && |t| > 1 {
      if IsDigit(t[1]) && IsIntBody(t[1..]) {
        IntBodyEndsWithDigit(t[1..]);
      } else {
        IntBodyEndsWithDigit(t[2..]);
      }
    }
  }

  /** A no-break space and the separators \x1c to \x1f are whitespace to `strip()`. */
  lemma UnicodeSpaceExamples()
    ensures Strip("Austin\U{00A0}") == "Austin"
    ensures Strip("\U{001C}") == []
  {
    var s := "Austin\U{00A0}";
    StripUnpadded("Austin");
    assert StripLeft(s) == s;
    assert s[..|s| - 1] == "Austin";
    StripEmptyIffBlank("\U{001C}");
  }

  /** `int(str(i)) == i` */
  lemma IntToStringRoundTrip(i: int)
    ensures ParseInt(IntToString(i)) == Success(i)
  {
    if i < 0 {
      var n: nat := -i;
      NegativeTextRoundTrip(n);
      assert IntToString(i) == "-" + NatToString(n);
    } else {
      NaturalTextRoundTrip(i);
    }
  }
}
