/** The text step of the price conversion: the container's visible text is
    stripped to the characters a price is written with, the first comma becomes
    the decimal point, and `parseFloat` reads a number from the front.
    Both content scripts do exactly this (content.js:41-46 and
    archives/dist_v1.0.5/content.js:70-75). */
module PriceText {
  import opened Wrappers
  import opened Decimal

  /** The characters that `/[^0-9,-]+/g` does not delete: digits, `,` and `-`. */
  predicate IsKept(c: char) {
    IsDigit(c) || c == ',' || c == '-'
  }

  /** `text.replace(/[^0-9,-]+/g, "")`. */
  function StripToNumeric(text: string): string {
    if text == [] then []
    else if IsKept(text[0]) then [text[0]] + StripToNumeric(text[1..])
    else StripToNumeric(text[1..])
  }

  /** Only digits, commas and minus signs are left, and nothing is added. */
  lemma {:induction false} StripKeepsOnlyNumeric(text: string)
    ensures |StripToNumeric(text)| <= |text|
    ensures forall i :: 0 <= i < |StripToNumeric(text)| ==> IsKept(StripToNumeric(text)[i])
  {
    if text != [] {
      StripKeepsOnlyNumeric(text[1..]);
    }
  }

  /** Every digit, comma and minus sign of the text survives, as often as it occurs. */
  lemma {:induction false} StripCounts(text: string)
    ensures forall c :: IsKept(c) ==> multiset(StripToNumeric(text))[c] == multiset(text)[c]
  {
    if text != [] {
      assert text == [text[0]] + text[1..];
      StripCounts(text[1..]);
    }
  }

  /** Stripping works character by character: the strip of a concatenation is
      the concatenation of the strips. With the single-character cases this
      pins the function down completely (order included). */
  lemma {:induction false} StripDistributes(a: string, b: string)
    ensures StripToNumeric(a + b) == StripToNumeric(a) + StripToNumeric(b)
  {
    if a == [] {
      assert a + b == b;
    } else {
      assert (a + b)[0] == a[0];
      assert (a + b)[1..] == a[1..] + b;
      StripDistributes(a[1..], b);
      if IsKept(a[0]) {
        assert StripToNumeric(a + b) == [a[0]] + StripToNumeric(a[1..] + b);
      } else {
        assert StripToNumeric(a + b) == StripToNumeric(a[1..] + b);
      }
    }
  }

  /** A string already made of kept characters is left alone, so stripping is idempotent. */
  lemma {:induction false} StripKeepsNumeric(s: string)
    requires forall i :: 0 <= i < |s| ==> IsKept(s[i])
    ensures StripToNumeric(s) == s
  {
    if s != [] {
      StripKeepsNumeric(s[1..]);
    }
  }

  lemma StripIdempotent(text: string)
    ensures StripToNumeric(StripToNumeric(text)) == StripToNumeric(text)
  {
    StripKeepsOnlyNumeric(text);
    StripKeepsNumeric(StripToNumeric(text));
  }

  /** The index of the first occurrence of `c`, as `indexOf` finds it. */
  function IndexOf(s: string, c: char): (r: Option<nat>)
    ensures r.Some? ==> r.value < |s| && s[r.value] == c && c !in s[..r.value]
    ensures r.None? <==> c !in s
  {
    if s == [] then None
    else if s[0] == c then Some(0)
    else
      assert s == [s[0]] + s[1..];
      match IndexOf(s[1..], c)
      case None => None
      case Some(k) =>
        assert s[..k + 1] == [s[0]] + s[1..][..k];
        Some(k + 1)
  }

  /** `s.replace(from, to)` with a one-character string pattern: only the first
      occurrence is replaced. */
  function ReplaceFirst(s: string, from: char, to: char): (r: string)
    ensures |r| == |s|
  {
    if s == [] then []
    else if s[0] == from then [to] + s[1..]
    else [s[0]] + ReplaceFirst(s[1..], from, to)
  }

  /** What the replacement does, in terms of the first occurrence: exactly that
      position changes, to `to`; without an occurrence nothing changes. */
  lemma {:induction false} ReplaceFirstAt(s: string, from: char, to: char)
    ensures IndexOf(s, from).None? ==> ReplaceFirst(s, from, to) == s
    ensures IndexOf(s, from).Some? ==>
      var i := IndexOf(s, from).value;
      ReplaceFirst(s, from, to) == s[..i] + [to] + s[i + 1..]
  {
    if s != [] && s[0] != from {
      ReplaceFirstAt(s[1..], from, to);
      assert s == [s[0]] + s[1..];
    }
  }

  /** The whole sanitising expression of the content scripts. */
  function Sanitize(text: string): string {
    ReplaceFirst(StripToNumeric(text), ',', '.')
  }

  /** What a sanitised string is made of: only digits, `,`, `-` and `.`; the
      `.` (if any) sits where the first comma of the stripped text was, and a
      comma after it survives as a comma. */
  lemma SanitizeShape(text: string)
    ensures forall i :: 0 <= i < |Sanitize(text)| ==> IsKept(Sanitize(text)[i]) || Sanitize(text)[i] == '.'
    ensures IndexOf(StripToNumeric(text), ',').None? ==> Sanitize(text) == StripToNumeric(text)
    ensures IndexOf(StripToNumeric(text), ',').Some? ==>
      var s := StripToNumeric(text);
      var i := IndexOf(s, ',').value;
      Sanitize(text) == s[..i] + "." + s[i + 1..]
  {
    StripKeepsOnlyNumeric(text);
    ReplaceFirstAt(StripToNumeric(text), ',', '.');
  }

  lemma StripPieces()
    ensures StripToNumeric("1.25") == "125"
    ensures StripToNumeric("0,50") == "0,50"
    ensures StripToNumeric(" TL") == ""
  {
  }

  /** The text "1.250,50 TL", written in three pieces. */
  lemma StripExample()
    ensures StripToNumeric("1.25" + "0,50" + " TL") == "1250,50"
  {
    StripPieces();
    StripDistributes("1.25", "0,50");
    StripDistributes("1.25" + "0,50", " TL");
  }

  /** The first occurrence is the one replaced, whatever follows it. */
  lemma {:induction false} ReplaceFirstAfter(a: string, b: string, from: char, to: char)
    requires from !in a
    ensures ReplaceFirst(a + [from] + b, from, to) == a + [to] + b
  {
    if a != [] {
      ReplaceFirstAfter(a[1..], b, from, to);
      assert (a + [from] + b)[1..] == a[1..] + [from] + b;
    }
  }

  lemma ReplaceExample()
    ensures ReplaceFirst("1250" + "," + "50", ',', '.') == "1250" + "." + "50"
    ensures ReplaceFirst("1000", ',', '.') == "1000"
  {
    ReplaceFirstAfter("1250", "50", ',', '.');
    ReplaceFirstAt("1000", ',', '.');
  }

  lemma StripLiraExample()
    ensures StripToNumeric("₺1.000") == "1000"
  {
  }

  /** The thousands separator `.` is deleted and the decimal comma becomes a
      point: "1.250,50 TL" gives "1250.50" and "₺1.000" gives "1000". */
  lemma SanitizeExample()
    ensures Sanitize("1.25" + "0,50" + " TL") == "1250.50"
    ensures Sanitize("₺1.000") == "1000"
  {
    StripExample();
    StripLiraExample();
    ReplaceExample();
    assert "1250,50" == "1250" + "," + "50";
    assert "1250" + "." + "50" == "1250.50";
  }

  /** The decimal literal `parseFloat` consumed: a sign, the digits before the
      point and the digits after it. */
  datatype Numeral = Numeral(negative: bool, whole: string, fraction: string)

  predicate WellFormed(n: Numeral) {
    AllDigits(n.whole) && AllDigits(n.fraction) && |n.whole| + |n.fraction| > 0
  }

  /** The exact value a numeral denotes (JavaScript then rounds it to the nearest double). */
  function Value(n: Numeral): real
    requires WellFormed(n)
  {
    var magnitude := DigitsValue(n.whole) as real + DigitsValue(n.fraction) as real / Pow10(|n.fraction|) as real;
    if n.negative then -magnitude else magnitude
  }

  /** `parseFloat` applied to a sanitised string. The sanitised alphabet has no
      white space, no `+`, no exponent letter and no `Infinity`, so what remains
      of the grammar is an optional `-`, digits, and an optional `.` with
      digits; the longest such prefix is read, and `None` stands for `NaN`. */
  function ParseFloat(s: string): Option<Numeral> {
    var negative := |s| > 0 && s[0] == '-';
    var t := if negative then s[1..] else s;
    var n := LeadingDigits(t);
    var fraction := FractionDigits(t[n..]);
    if n == 0 && fraction == [] then None
    else Some(Numeral(negative, t[..n], fraction))
  }

  /** The digits right after a leading point, or none when there is no point. */
  function FractionDigits(rest: string): string {
    if |rest| > 0 && rest[0] == '.' then rest[1..][..LeadingDigits(rest[1..])] else ""
  }

  /** Whatever `parseFloat` reads is a numeral with at least one digit. */
  lemma ParseFloatWellFormed(s: string)
    ensures ParseFloat(s).Some? ==> WellFormed(ParseFloat(s).value)
  {
    var t := if |s| > 0 && s[0] == '-' then s[1..] else s;
    LeadingDigitsSpec(t);
    var rest := t[LeadingDigits(t)..];
    if |rest| > 0 && rest[0] == '.' {
      LeadingDigitsSpec(rest[1..]);
    }
  }

  /** A number starts the string: after an optional `-`, a digit, or a `.` followed by a digit. */
  predicate StartsNumeric(s: string) {
    var t := if |s| > 0 && s[0] == '-' then s[1..] else s;
    (|t| > 0 && IsDigit(t[0])) || (|t| > 1 && t[0] == '.' && IsDigit(t[1]))
  }

  lemma ParseFloatDefined(s: string)
    ensures ParseFloat(s).Some? <==> StartsNumeric(s)
  {
    var t := if |s| > 0 && s[0] == '-' then s[1..] else s;
    LeadingDigitsSpec(t);
    var rest := t[LeadingDigits(t)..];
    if |rest| > 0 && rest[0] == '.' {
      LeadingDigitsSpec(rest[1..]);
    }
  }

  /** A plain run of digits reads as itself, with no fraction. */
  lemma ParseFloatInteger(w: string)
    requires |w| > 0 && AllDigits(w)
    ensures ParseFloat(w) == Some(Numeral(false, w, ""))
  {
    LeadingDigitsOfDigitsThen(w, "");
    assert w + "" == w;
    assert w[..|w|] == w;
  }

  /** Digits, a point and digits read as exactly those two runs. */
  lemma ParseFloatDecimal(w: string, f: string)
    requires AllDigits(w) && AllDigits(f) && |f| > 0
    ensures ParseFloat(w + "." + f) == Some(Numeral(false, w, f))
  {
    var s := w + "." + f;
    assert s == w + ("." + f);
    LeadingDigitsOfDigitsThen(w, "." + f);
    assert s[..|w|] == w;
    assert s[|w|..] == "." + f;
    assert ("." + f)[1..] == f;
    LeadingDigitsOfDigitsThen(f, "");
    assert f + "" == f;
    assert f[..|f|] == f;
  }

  lemma DigitsExample()
    ensures DigitsValue("1250") == 1250 && DigitsValue("50") == 50 && DigitsValue("1000") == 1000
  {
    assert "1250"[..3] == "125" && "125"[..2] == "12" && "12"[..1] == "1" && "1"[..0] == "";
    assert "50"[..1] == "5" && "5"[..0] == "";
    assert "1000"[..3] == "100" && "100"[..2] == "10" && "10"[..1] == "1";
  }

  lemma ParseFloatExample()
    ensures ParseFloat("1250.50") == Some(Numeral(false, "1250", "50"))
    ensures Value(Numeral(false, "1250", "50")) == 1250.5
  {
    DigitsExample();
    assert "1250.50" == "1250" + "." + "50";
    ParseFloatDecimal("1250", "50");
    assert Pow10(2) == 100;
  }

  lemma ParseFloatIntegerExample()
    ensures ParseFloat("1000") == Some(Numeral(false, "1000", ""))
    ensures Value(Numeral(false, "1000", "")) == 1000.0
  {
    DigitsExample();
    ParseFloatInteger("1000");
  }

  /** A lone sign, a lone point and the empty string are `NaN`. */
  lemma ParseFloatNaNExample()
    ensures ParseFloat("-") == None && ParseFloat(".") == None && ParseFloat("") == None
  {
    ParseFloatDefined("-");
    ParseFloatDefined(".");
    ParseFloatDefined("");
  }

  lemma {:induction false} StripNoDigits(text: string)
    requires forall i :: 0 <= i < |text| ==> !IsDigit(text[i])
    ensures forall i :: 0 <= i < |StripToNumeric(text)| ==> !IsDigit(StripToNumeric(text)[i])
  {
    if text != [] {
      StripNoDigits(text[1..]);
    }
  }

  /** Text without a single digit never yields a number, so its container gets
      no annotation. */
  lemma NoDigitsNoNumber(text: string)
    requires forall i :: 0 <= i < |text| ==> !IsDigit(text[i])
    ensures ParseFloat(Sanitize(text)).None?
  {
    StripNoDigits(text);
    var s := StripToNumeric(text);
    ReplaceFirstAt(s, ',', '.');
    var r := Sanitize(text);
    forall i | 0 <= i < |r| ensures !IsDigit(r[i]) {
      if IndexOf(s, ',').Some? && i == IndexOf(s, ',').value {
        assert r[i] == '.';
      } else {
        assert r[i] == s[i];
      }
    }
    ParseFloatDefined(r);
  }
}
