/** `formatEnum`, the helper both room lists use to show an enum key such as
    "AC_DELUXE" as the label "Ac Deluxe": underscores become spaces, the text
    is lower-cased, then every letter that starts a word is upper-cased
    (`replace(/\b\w/g, c => c.toUpperCase())`). */
module EnumLabels {
  import opened Common
  import opened Text

  /** `s.replace(/_/g, " ")`. */
  function UnderscoresToSpaces(s: string): (r: string)
    ensures |r| == |s|
    ensures forall i :: 0 <= i < |s| ==> r[i] == (if s[i] == '_' then ' ' else s[i])
  {
    seq(|s|, i requires 0 <= i < |s| => if s[i] == '_' then ' ' else s[i])
  }

  /** `\b\w` matches at position i: a word character not preceded by one. */
  predicate StartsWord(s: string, i: int)
    requires 0 <= i < |s|
  {
    IsWordChar(s[i]) && (i == 0 || !IsWordChar(s[i - 1]))
  }

  /** `s.replace(/\b\w/g, (c) => c.toUpperCase())`. */
  function CapitalizeWords(s: string): (r: string)
    ensures |r| == |s|
    ensures forall i :: 0 <= i < |s| ==> LowerChar(r[i]) == LowerChar(s[i])
    ensures forall i :: 0 <= i < |s| && StartsWord(s, i) && IsLetter(s[i]) ==> IsUpper(r[i])
    ensures forall i :: 0 <= i < |s| && !StartsWord(s, i) ==> r[i] == s[i]
  {
    forall i | 0 <= i < |s| {
      CaseMapping(s[i]);
    }
    seq(|s|, i requires 0 <= i < |s| => if StartsWord(s, i) then UpperChar(s[i]) else s[i])
  }

  /** The three passes of `formatEnum` on a present, non-empty value. */
  function FormatText(s: string): string
  {
    CapitalizeWords(ToLower(UnderscoresToSpaces(s)))
  }

  /** The characters of a formatted text are those of the input, an
      underscore read as a space, with only their case changed. */
  predicate SameLettersUpToCase(r: string, s: string)
  {
    |r| == |s| && forall i :: 0 <= i < |s| ==> LowerChar(r[i]) == LowerChar(if s[i] == '_' then ' ' else s[i])
  }

  lemma FormatTextKeepsLetters(s: string)
    ensures SameLettersUpToCase(FormatText(s), s)
  {
    var u := UnderscoresToSpaces(s);
    var l := ToLower(u);
    forall i | 0 <= i < |s|
      ensures LowerChar(FormatText(s)[i]) == LowerChar(if s[i] == '_' then ' ' else s[i])
    {
      CaseMapping(u[i]);
    }
  }

  /** A finished label: no underscore, and each ASCII letter is upper-case
      exactly when it starts a word. */
  ghost predicate IsLabel(r: string)
  {
    forall i :: 0 <= i < |r| ==>
      r[i] != '_' && (IsLetter(r[i]) ==> (IsUpper(r[i]) <==> StartsWord(r, i)))
  }

  /** The passes keep the length, remove every underscore and leave the
      word-initial letters upper-case and all others lower-case. */
  lemma FormatTextIsLabel(s: string)
    ensures |FormatText(s)| == |s|
    ensures IsLabel(FormatText(s))
  {
    var u := UnderscoresToSpaces(s);
    var l := ToLower(u);
    var r := FormatText(s);
    assert forall i :: 0 <= i < |s| ==> IsWordChar(r[i]) == IsWordChar(l[i]);
    forall i | 0 <= i < |r|
      ensures r[i] != '_' && (IsLetter(r[i]) ==> (IsUpper(r[i]) <==> StartsWord(r, i)))
    {
      assert StartsWord(r, i) == StartsWord(l, i);
    }
  }

  /** A label is left as it is by the passes. */
  lemma LabelIsFixpoint(r: string)
    requires IsLabel(r)
    ensures FormatText(r) == r
  {
    var u := UnderscoresToSpaces(r);
    assert u == r;
    var l := ToLower(r);
    forall i | 0 <= i < |r| ensures FormatText(r)[i] == r[i] {
      assert IsWordChar(l[i]) == IsWordChar(r[i]);
      if i > 0 {
        assert IsWordChar(l[i - 1]) == IsWordChar(r[i - 1]);
      }
      assert StartsWord(l, i) == StartsWord(r, i);
    }
  }

  /** Two labels with the same characters up to case are equal: the case
      of every letter is fixed by where the words start. */
  lemma LabelUnique(a: string, b: string)
    requires IsLabel(a) && IsLabel(b) && |a| == |b|
    requires forall i :: 0 <= i < |a| ==> LowerChar(a[i]) == LowerChar(b[i])
    ensures a == b
  {
    assert forall i :: 0 <= i < |a| ==> IsWordChar(a[i]) == IsWordChar(b[i]) by {
      forall i | 0 <= i < |a| ensures IsWordChar(a[i]) == IsWordChar(b[i]) {
        assert IsWordChar(LowerChar(a[i])) == IsWordChar(LowerChar(b[i]));
      }
    }
    forall i | 0 <= i < |a| ensures a[i] == b[i] {
      assert StartsWord(a, i) == StartsWord(b, i);
    }
  }

  /** `formatEnum(value?: string)` of the typed room list: "-" for a
      missing or empty value, otherwise the one label whose characters are
      the value's, underscores read as spaces, up to case. */
  function FormatEnum(value: Option<string>): (r: string)
    ensures !IsTruthy(value) ==> r == "-"
    ensures IsTruthy(value) ==> IsLabel(r) && SameLettersUpToCase(r, value.value)
  {
    if !IsTruthy(value) then "-"
    else
      FormatTextIsLabel(value.value);
      FormatTextKeepsLetters(value.value);
      FormatText(value.value)
  }

  /** The enum key of an air-conditioned deluxe room. */
  lemma FormatEnumExample()
    ensures FormatEnum(Some("AC_DELUXE")) == "Ac Deluxe"
    ensures FormatEnum(Some("")) == "-" && FormatEnum(None) == "-"
  {
    var r := FormatEnum(Some("AC_DELUXE"));
    var e := "Ac Deluxe";
    assert IsLabel(e) by {
      forall i | 0 <= i < |e| ensures e[i] != '_' && (IsLetter(e[i]) ==> (IsUpper(e[i]) <==> StartsWord(e, i))) {
        if i == 3 {
          assert StartsWord(e, 3);
        }
      }
    }
    LabelUnique(r, e);
  }

  /** Formatting a label again changes nothing. */
  lemma FormatEnumIdempotent(value: Option<string>)
    ensures FormatEnum(Some(FormatEnum(value))) == FormatEnum(value)
  {
    var r := FormatEnum(value);
    if !IsTruthy(value) {
      assert IsLabel("-");
      LabelIsFixpoint("-");
    } else {
      LabelIsFixpoint(r);
    }
  }

  /** The values `formatEnum(value)` of the untyped room list can receive. */
  datatype JsValue = Undefined | Null | Bool(b: bool) | Number(n: int) | Str(s: string)

  predicate IsFalsy(v: JsValue)
  {
    v == Undefined || v == Null || v == Bool(false) || v == Number(0) || v == Str("")
  }

  function DigitChar(d: int): (c: char)
    requires 0 <= d < 10
    ensures IsDigit(c)
  {
    ('0' as int + d) as char
  }

  function NatToDecimal(n: nat): (r: string)
    ensures r != [] && forall i :: 0 <= i < |r| ==> IsDigit(r[i])
  {
    if n < 10 then [DigitChar(n)] else NatToDecimal(n / 10) + [DigitChar(n % 10)]
  }

  /** `String(v)`: a string as it is, a number as its decimal digits
      after a minus sign when negative. */
  function JsString(v: JsValue): (r: string)
    ensures v.Str? ==> r == v.s
    ensures v.Number? && v.n >= 0 ==> r != [] && forall i :: 0 <= i < |r| ==> IsDigit(r[i])
    ensures v.Number? && v.n < 0 ==> |r| >= 2 && r[0] == '-' && forall i :: 1 <= i < |r| ==> IsDigit(r[i])
  {
    match v
    case Undefined => "undefined"
    case Null => "null"
    case Bool(b) => if b then "true" else "false"
    case Number(n) => if n < 0 then "-" + NatToDecimal(-n) else NatToDecimal(n)
    case Str(s) => s
  }

  /** `formatEnum(value)` of the untyped room list: any falsy value, 0
      included, gives "-"; anything else is coerced with `String` first. */
  function FormatEnumValue(v: JsValue): (r: string)
    ensures IsFalsy(v) ==> r == "-"
    ensures !IsFalsy(v) ==> IsLabel(r) && SameLettersUpToCase(r, JsString(v))
  {
    if IsFalsy(v) then "-"
    else
      FormatTextIsLabel(JsString(v));
      FormatTextKeepsLetters(JsString(v));
      FormatText(JsString(v))
  }

  /** On strings both helpers agree. */
  lemma FormatEnumValueOnStrings(s: string)
    ensures FormatEnumValue(Str(s)) == FormatEnum(Some(s))
  {
  }

  /** A non-zero number is shown as its decimal text, and `true` as "True". */
  lemma FormatEnumValueOnNumbers(n: int)
    requires n != 0
    ensures FormatEnumValue(Number(n)) == JsString(Number(n))
    ensures FormatEnumValue(Bool(true)) == "True"
  {
    var t := JsString(Number(n));
    assert forall i :: 0 <= i < |t| ==> !IsLetter(t[i]) && t[i] != '_' by {
      if n < 0 {
        assert t == "-" + NatToDecimal(-n);
        forall i | 0 <= i < |t| ensures !IsLetter(t[i]) && t[i] != '_' {
          if i > 0 {
            assert t[i] == NatToDecimal(-n)[i - 1];
          }
        }
      }
    }
    LabelIsFixpoint(t);
    var tr := FormatText("true");
    assert StartsWord(ToLower(UnderscoresToSpaces("true")), 0);
    assert tr == "True";
  }
}
