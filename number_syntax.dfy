/** The strings JavaScript's `Number(s)` accepts, for an already trimmed,
    non-empty `s`: the StringNumericLiteral grammar of ECMAScript section
    7.1.4.1.1 (decimal literals with an optional sign, exponent and
    "Infinity", and unsigned 0x / 0o / 0b literals). Every other such string
    converts to NaN. */
module NumberSyntax {
  import opened Strings

  predicate IsDigit(c: char) { '0' <= c <= '9' }

  predicate IsHexDigit(c: char) {
    IsDigit(c) || 'a' <= c <= 'f' || 'A' <= c <= 'F'
  }

  predicate AllOf(s: string, p: char -> bool) {
    forall i :: 0 <= i < |s| ==> p(s[i])
  }

  predicate Digits(s: string) {
    s != [] && AllOf(s, IsDigit)
  }

  /** ExponentPart without its "e": an optional sign, then digits. */
  predicate SignedInteger(s: string) {
    if s != [] && (s[0] == '+' || s[0] == '-') then Digits(s[1..]) else Digits(s)
  }

  /** `digits`, `digits.`, `digits.digits` or `.digits`. */
  predicate Mantissa(m: string) {
    if '.' in m then
      var i := IndexOf(m, '.');
      AllOf(m[..i], IsDigit) && AllOf(m[i + 1..], IsDigit) && |m| >= 2
    else Digits(m)
  }

  /** StrUnsignedDecimalLiteral. */
  predicate UnsignedDecimal(s: string) {
    s == "Infinity" ||
    if 'e' in s || 'E' in s then
      var i := FirstExponentMark(s);
      Mantissa(s[..i]) && SignedInteger(s[i + 1..])
    else Mantissa(s)
  }

  function FirstExponentMark(s: string): (i: nat)
    requires 'e' in s || 'E' in s
    ensures i < |s| && (s[i] == 'e' || s[i] == 'E')
    ensures forall j :: 0 <= j < i ==> s[j] != 'e' && s[j] != 'E'
  {
    if s[0] == 'e' || s[0] == 'E' then 0 else 1 + FirstExponentMark(s[1..])
  }

  /** NonDecimalIntegerLiteral: a prefix, then at least one digit of the base. */
  predicate NonDecimal(s: string) {
    |s| >= 3 && s[0] == '0' &&
    ((s[1] in "xX" && AllOf(s[2..], IsHexDigit)) ||
     (s[1] in "oO" && AllOf(s[2..], c => '0' <= c <= '7')) ||
     (s[1] in "bB" && AllOf(s[2..], c => c == '0' || c == '1')))
  }

  /** `!isNaN(Number(s))` for a trimmed, non-empty `s`. */
  predicate IsNumericLiteral(s: string) {
    NonDecimal(s) ||
    (s != [] && (s[0] == '+' || s[0] == '-') && UnsignedDecimal(s[1..])) ||
    UnsignedDecimal(s)
  }

  /** A literal never holds a comma or a blank, so CSV fields that contain
      one of these are categorical. */
  lemma {:induction false} NumericHasNoComma(s: string)
    requires IsNumericLiteral(s)
    ensures ',' !in s && ' ' !in s
  {
    if NonDecimal(s) {
      assert forall i :: 2 <= i < |s| ==> s[i] != ',' && s[i] != ' ' by {
        forall i | 2 <= i < |s| ensures s[i] != ',' && s[i] != ' ' {
          assert s[2..][i - 2] == s[i];
        }
      }
    } else if s != [] && (s[0] == '+' || s[0] == '-') && UnsignedDecimal(s[1..]) {
      UnsignedHasNoComma(s[1..]);
      assert forall i :: 1 <= i < |s| ==> s[i] == s[1..][i - 1];
    } else {
      UnsignedHasNoComma(s);
    }
  }

  lemma UnsignedHasNoComma(s: string)
    requires UnsignedDecimal(s)
    ensures ',' !in s && ' ' !in s
  {
    if s != "Infinity" {
      if 'e' in s || 'E' in s {
        var i := FirstExponentMark(s);
        MantissaHasNoComma(s[..i]);
        SignedIntegerHasNoComma(s[i + 1..]);
        assert s == s[..i] + [s[i]] + s[i + 1..];
      } else {
        MantissaHasNoComma(s);
      }
    }
  }

  lemma SignedIntegerHasNoComma(t: string)
    requires SignedInteger(t)
    ensures ',' !in t && ' ' !in t
  {
    if t != [] && (t[0] == '+' || t[0] == '-') {
      assert t == [t[0]] + t[1..];
    }
  }

  lemma MantissaHasNoComma(m: string)
    requires Mantissa(m)
    ensures ',' !in m && ' ' !in m
  {
    if '.' in m {
      var i := IndexOf(m, '.');
      assert m == m[..i] + [m[i]] + m[i + 1..];
    }
  }

  /** Literals `Number` accepts. */
  lemma AcceptsDecimal()
    ensures IsNumericLiteral("42") && IsNumericLiteral("-3.5") && IsNumericLiteral(".5")
  {
    assert IndexOf("-3.5"[1..], '.') == 1;
    assert IndexOf(".5", '.') == 0;
  }

  lemma AcceptsOthers()
    ensures IsNumericLiteral("1e10") && IsNumericLiteral("0x1F") && IsNumericLiteral("Infinity")
  {
    assert FirstExponentMark("1e10") == 1;
    assert "1e10"[..1] == "1" && "1e10"[2..] == "10";
  }

  /** Strings `Number` turns into NaN. */
  lemma RejectsExamples()
    ensures !IsNumericLiteral("abc") && !IsNumericLiteral("1,5") && !IsNumericLiteral(".")
  {
    assert "abc"[0] == 'a';
    NotNumericWithComma("1,5");
    assert IndexOf(".", '.') == 0;
  }

  /** A sign is not allowed before a 0x literal, and an exponent needs digits. */
  lemma RejectsSignedHexAndBareExponent()
    ensures !IsNumericLiteral("-0x10") && !IsNumericLiteral("1e")
  {
    assert FirstExponentMark("1e") == 1;
    assert "1e"[2..] == [];
    var hex := "-0x10"[1..];
    assert hex == "0x10" && hex[1] == 'x';
    assert 'e' !in hex && 'E' !in hex && '.' !in hex;
    assert !Digits(hex);
    assert "-0x10"[0] == '-' && !Digits("-0x10");
    assert 'e' !in "-0x10" && 'E' !in "-0x10" && '.' !in "-0x10";
  }

  lemma NotNumericWithComma(s: string)
    requires ',' in s
    ensures !IsNumericLiteral(s)
  {
    if IsNumericLiteral(s) {
      NumericHasNoComma(s);
    }
  }
}
