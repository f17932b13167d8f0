/** Values shared by every part of the model: optional values, JavaScript truthiness of
    request fields, and the string operations the services and the browser code rely on
    (`split(' ')`, `startsWith`, `parseInt(s, 10)`, `String(n)`). */
module Common {

  datatype Option<T> = None | Some(value: T)

  /** A JSON string field is truthy in JavaScript when it is present, not null and not "". */
  predicate Present(s: Option<string>) {
    s.Some? && s.value != ""
  }

  /** A JSON number field is truthy when it is present and not 0. */
  predicate PresentNumber(n: Option<int>) {
    n.Some? && n.value != 0
  }

  /** `fallback` unless `m` is truthy: the `data.message || '...'` idiom of the browser code. */
  function MessageOr(m: Option<string>, fallback: string): (r: string)
    ensures Present(m) ==> r == m.value
    ensures !Present(m) ==> r == fallback
  {
    if Present(m) then m.value else fallback
  }

  predicate StartsWith(s: string, prefix: string) {
    |prefix| <= |s| && s[..|prefix|] == prefix
  }

  // ---------------------------------------------------------------------------
  // String.prototype.split with a one-character separator

  /** The pieces of `s` between occurrences of `sep`, as `s.split(sep)` returns them. */
  function Split(s: string, sep: char): (r: seq<string>)
    ensures |r| >= 1
    ensures forall k :: 0 <= k < |r| ==> sep !in r[k]
    decreases |s|
  {
    if |s| == 0 then [""]
    else
      var rest := Split(s[1..], sep);
      if s[0] == sep then [""] + rest
      else [[s[0]] + rest[0]] + rest[1..]
  }

  /** The inverse of Split: the pieces glued back together with `sep`. */
  function Join(parts: seq<string>, sep: char): string {
    if |parts| == 0 then ""
    else if |parts| == 1 then parts[0]
    else parts[0] + [sep] + Join(parts[1..], sep)
  }

  lemma {:induction false} JoinSplit(s: string, sep: char)
    ensures Join(Split(s, sep), sep) == s
    decreases |s|
  {
    if |s| > 0 {
      var rest := Split(s[1..], sep);
      JoinSplit(s[1..], sep);
      if s[0] == sep {
        assert Split(s, sep) == [""] + rest;
        assert ([""] + rest)[1..] == rest;
        assert s == [s[0]] + s[1..];
      } else {
        var r := Split(s, sep);
        assert r == [[s[0]] + rest[0]] + rest[1..];
        if |rest| == 1 {
          assert s == [s[0]] + s[1..];
        } else {
          assert r[1..] == rest[1..];
          assert Join(rest, sep) == rest[0] + [sep] + Join(rest[1..], sep);
          assert s == [s[0]] + s[1..];
        }
      }
    }
  }

  /** Splitting a word that holds no separator, followed by one separator, yields that word
      first and the split of what follows. */
  lemma {:induction false} SplitAfterWord(w: string, sep: char, t: string)
    requires sep !in w
    ensures Split(w + [sep] + t, sep) == [w] + Split(t, sep)
    decreases |w|
  {
    if |w| == 0 {
      assert w + [sep] + t == [sep] + t;
      assert ([sep] + t)[1..] == t;
    } else {
      var s := w + [sep] + t;
      assert s[0] == w[0];
      assert s[1..] == w[1..] + [sep] + t;
      SplitAfterWord(w[1..], sep, t);
      assert [w[0]] + w[1..] == w;
    }
  }

  lemma SplitWithoutSeparator(s: string, sep: char)
    requires sep !in s
    ensures Split(s, sep) == [s]
    decreases |s|
  {
    if |s| > 0 {
      SplitWithoutSeparator(s[1..], sep);
      assert [s[0]] + s[1..] == s;
    }
  }

  /** The second piece of `s.split(' ')`, or None where JavaScript's `[1]` is undefined. */
  function SecondWord(s: string): (r: Option<string>)
    ensures r.Some? <==> ' ' in s
    ensures r.Some? ==> ' ' !in r.value
  {
    var parts := Split(s, ' ');
    if |parts| >= 2 then
      assert ' ' in s by {
        if ' ' !in s {
          SplitWithoutSeparator(s, ' ');
        }
      }
      Some(parts[1])
    else
      assert ' ' !in s by {
        if ' ' in s {
          NoSeparatorWhenSinglePiece(s, ' ');
        }
      }
      None
  }

  lemma NoSeparatorWhenSinglePiece(s: string, sep: char)
    requires |Split(s, sep)| == 1
    ensures sep !in s
  {
    JoinSplit(s, sep);
  }

  /** `"Bearer " + t` yields `t` as its second word whenever `t` holds no space. */
  lemma SecondWordOfBearer(t: string)
    requires ' ' !in t
    ensures SecondWord("Bearer " + t) == Some(t)
  {
    assert "Bearer " + t == "Bearer" + [' '] + t;
    SplitAfterWord("Bearer", ' ', t);
    SplitWithoutSeparator(t, ' ');
  }

  // ---------------------------------------------------------------------------
  // Decimal numerals

  predicate IsDigit(c: char) {
    '0' <= c <= '9'
  }

  function DigitValue(c: char): nat
    requires IsDigit(c)
  {
    (c as int - '0' as int) as nat
  }

  function DigitChar(d: nat): (c: char)
    requires d < 10
    ensures IsDigit(c) && DigitValue(c) == d
  {
    ('0' as int + d) as char
  }

  predicate AllDigits(s: string) {
    forall k :: 0 <= k < |s| ==> IsDigit(s[k])
  }

  /** The value of a run of decimal digits, most significant first. */
  function DigitsValue(s: string): nat
    requires AllDigits(s)
  {
    if |s| == 0 then 0 else DigitsValue(s[..|s| - 1]) * 10 + DigitValue(s[|s| - 1])
  }

  /** `String(n)` for a natural number: its shortest decimal numeral. */
  function NatString(n: nat): (r: string)
    ensures |r| >= 1 && AllDigits(r)
    ensures n > 0 ==> r[0] != '0'
  {
    if n < 10 then [DigitChar(n)] else NatString(n / 10) + [DigitChar(n % 10)]
  }

  /** `String(n)` for an integer: never empty, signed exactly when negative, and free of spaces,
      so it can stand as one word of a header or one segment of a path. */
  function IntString(n: int): (r: string)
    ensures |r| >= 1 && ' ' !in r
    ensures r[0] == '-' <==> n < 0
  {
    if n < 0 then "-" + NatString(-n) else NatString(n)
  }

  lemma {:induction false} NatStringValue(n: nat)
    ensures DigitsValue(NatString(n)) == n
  {
    if n >= 10 {
      var s := NatString(n);
      NatStringValue(n / 10);
      assert s[..|s| - 1] == NatString(n / 10);
    }
  }

  // ---------------------------------------------------------------------------
  // parseInt(s, 10)

  /** The characters `parseInt` skips before the numeral (the ASCII part of StrWhiteSpaceChar). */
  predicate IsSpace(c: char) {
    c == ' ' || c == '\t' || c == '\n' || c == '\r' || c == '\U{000B}' || c == '\U{000C}'
  }

  function SkipSpaces(s: string): (r: string)
    ensures |r| <= |s|
    ensures r == s[|s| - |r|..]
    ensures |r| > 0 ==> !IsSpace(r[0])
  {
    if |s| > 0 && IsSpace(s[0]) then SkipSpaces(s[1..]) else s
  }

  /** The longest prefix of `s` made of decimal digits. */
  function LeadingDigits(s: string): (r: string)
    ensures AllDigits(r) && |r| <= |s| && r == s[..|r|]
    ensures |r| < |s| ==> !IsDigit(s[|r|])
  {
    if |s| > 0 && IsDigit(s[0]) then [s[0]] + LeadingDigits(s[1..]) else ""
  }

  /** `parseInt(s, 10)`: None stands for NaN, produced when no digit follows the optional sign. */
  function ParseInt(s: string): (r: Option<int>)
    ensures r.None? <==> LeadingDigits(Unsigned(SkipSpaces(s))) == ""
  {
    var t := SkipSpaces(s);
    var digits := LeadingDigits(Unsigned(t));
    var v: int := if digits == "" then 0 else DigitsValue(digits);
    if digits == "" then None
    else if |t| > 0 && t[0] == '-' then Some(-v)
    else Some(v)
  }

  function Unsigned(t: string): string {
    if |t| > 0 && (t[0] == '-' || t[0] == '+') then t[1..] else t
  }

  lemma LeadingDigitsOfAllDigits(s: string)
    requires AllDigits(s)
    ensures LeadingDigits(s) == s
  {
    if |s| > 0 {
      LeadingDigitsOfAllDigits(s[1..]);
      assert [s[0]] + s[1..] == s;
    }
  }

  /** `parseInt(String(n), 10) == n`. */
  lemma ParseIntString(n: int)
    ensures ParseInt(IntString(n)) == Some(n)
  {
    var m: nat := if n < 0 then -n else n;
    var digits := NatString(m);
    NatStringValue(m);
    LeadingDigitsOfAllDigits(digits);
    var s := IntString(n);
    assert !IsSpace(s[0]);
    assert SkipSpaces(s) == s;
    if n < 0 {
      assert s == "-" + digits;
      assert s[1..] == digits;
      assert Unsigned(s) == digits;
    } else {
      assert s == digits;
      assert IsDigit(s[0]);
      assert Unsigned(s) == digits;
    }
  }

  /** A path segment built with `${n}` is read back by Postgres as `n`. */
  lemma PgIntegerOfIntString(n: int)
    ensures PgInteger(IntString(n)) == Some(n)
  {
    var m: nat := if n < 0 then -n else n;
    var digits := NatString(m);
    NatStringValue(m);
    var s := IntString(n);
    if n < 0 {
      assert s == "-" + digits && s[1..] == digits;
      assert Unsigned(s) == digits;
    } else {
      assert s == digits && IsDigit(s[0]);
      assert Unsigned(s) == digits;
    }
  }

  /** A numeral with no sign, no leading zero and no other character is reproduced by
      `String(parseInt(s, 10))`. */
  predicate CanonicalNumeral(s: string) {
    |s| >= 1 && AllDigits(s) && (|s| > 1 ==> s[0] != '0')
  }

  lemma {:induction false} NatStringOfValue(s: string)
    requires CanonicalNumeral(s)
    ensures NatString(DigitsValue(s)) == s
    decreases |s|
  {
    if |s| > 1 {
      var init := s[..|s| - 1];
      assert init[0] == s[0];
      NatStringOfValue(init);
      DigitsValueBound(init);
      var v := DigitsValue(s);
      assert v / 10 == DigitsValue(init);
      assert v % 10 == DigitValue(s[|s| - 1]);
      assert s == init + [s[|s| - 1]];
    }
  }

  lemma {:induction false} DigitsValueBound(s: string)
    requires AllDigits(s) && |s| >= 1 && s[0] != '0'
    ensures DigitsValue(s) >= 1
    decreases |s|
  {
    if |s| > 1 {
      var init := s[..|s| - 1];
      assert init[0] == s[0];
      DigitsValueBound(init);
    } else {
      assert DigitsValue(s) == DigitValue(s[0]);
    }
  }

  lemma ParseIntCanonical(s: string)
    requires CanonicalNumeral(s)
    ensures ParseInt(s) == Some(DigitsValue(s))
    ensures IntString(DigitsValue(s)) == s
  {
    LeadingDigitsOfAllDigits(s);
    NatStringOfValue(s);
    assert IsDigit(s[0]) && !IsSpace(s[0]);
    assert SkipSpaces(s) == s;
    assert s[0] != '-' && s[0] != '+';
    assert Unsigned(s) == s;
    var v: int := DigitsValue(s);
    assert LeadingDigits(Unsigned(SkipSpaces(s))) == s;
    assert ParseInt(s) == Some(v);
  }

  /** The value Postgres reads from a path parameter compared with an integer column:
      an optional sign followed by at least one digit; anything else raises an error. */
  function PgInteger(s: string): (r: Option<int>)
    ensures r.Some? ==> |s| >= 1
  {
    var body := Unsigned(s);
    if |body| >= 1 && AllDigits(body) then
      var v: int := DigitsValue(body);
      Some(if s[0] == '-' then -v else v)
    else None
  }

  /** Whatever Postgres reads from a path segment, `parseInt` in the browser reads the same, and a
      canonical numeral means its digits to both. */
  lemma PgIntegerAgreesWithParseInt(s: string)
    ensures PgInteger(s).Some? ==> ParseInt(s) == PgInteger(s)
    ensures CanonicalNumeral(s) ==> PgInteger(s) == Some(DigitsValue(s))
  {
    var body := Unsigned(s);
    if |body| >= 1 && AllDigits(body) {
      LeadingDigitsOfAllDigits(body);
      assert !IsSpace(s[0]);
      assert SkipSpaces(s) == s;
    }
    if CanonicalNumeral(s) {
      assert IsDigit(s[0]);
      assert body == s;
    }
  }
}
