/**
 * Text helpers with the semantics of the .NET calls the source uses:
 * integer formatting, byte.Parse, string.Split, string.Join and StartsWith.
 */
module Text {
  import opened Wrappers

  type uint8 = x: int | 0 <= x < 0x100
  type uint16 = x: int | 0 <= x < 0x1_0000

  predicate IsDigit(c: char) { '0' <= c <= '9' }

  predicate AllDigits(s: string) { forall i :: 0 <= i < |s| ==> IsDigit(s[i]) }

  function DigitChar(d: nat): (c: char)
    requires d < 10
    ensures IsDigit(c)
  {
    ('0' as int + d) as char
  }

  function DigitValue(c: char): (d: nat)
    requires IsDigit(c)
    ensures d < 10
  {
    c as int - '0' as int
  }

  /** Decimal text of a natural number as .NET formats an unsigned integer: no sign, no leading zero. */
  function DecimalString(n: nat): (s: string)
    ensures |s| >= 1 && AllDigits(s)
    ensures s[0] == '0' ==> n == 0 && s == "0"
  {
    if n < 10 then [DigitChar(n)] else DecimalString(n / 10) + [DigitChar(n % 10)]
  }

  /** The number a string of decimal digits denotes (leading zeros allowed). */
  function DigitsValue(s: string): nat
    requires AllDigits(s)
  {
    if s == [] then 0 else DigitsValue(s[..|s| - 1]) * 10 + DigitValue(s[|s| - 1])
  }

  /** A non-empty run of decimal digits, read as a natural number; None for any other text. */
  function ParseDecimal(s: string): (r: Option<nat>)
    ensures r.Some? <==> |s| >= 1 && AllDigits(s)
  {
    if |s| >= 1 && AllDigits(s) then Some(DigitsValue(s)) else None
  }

  /** The white space NumberStyles.AllowLeadingWhite and AllowTrailingWhite skip: U+0009 to U+000D and U+0020. */
  predicate IsNumberWhite(c: char) { c == ' ' || '\t' <= c <= '\r' }

  predicate AllNumberWhite(s: string) { forall i :: 0 <= i < |s| ==> IsNumberWhite(s[i]) }

  /** The text without its leading white space. */
  function TrimStartWhite(s: string): (r: string)
    ensures |r| <= |s|
  {
    if s != [] && IsNumberWhite(s[0]) then TrimStartWhite(s[1..]) else s
  }

  /** The text without its trailing white space. */
  function TrimEndWhite(s: string): (r: string)
    ensures |r| <= |s|
  {
    if s != [] && IsNumberWhite(s[|s| - 1]) then TrimEndWhite(s[..|s| - 1]) else s
  }

  /** The text without its leading and trailing white space. */
  function TrimWhite(s: string): (r: string)
    ensures |r| <= |s|
  {
    TrimEndWhite(TrimStartWhite(s))
  }

  /** The trimmed text, and the white space around it. */
  lemma {:induction false} TrimWhiteSplit(s: string) returns (lead: string, trail: string)
    ensures s == lead + TrimWhite(s) + trail && AllNumberWhite(lead) && AllNumberWhite(trail)
  {
    lead := TrimStartSplit(s);
    trail := TrimEndSplit(TrimStartWhite(s));
    assert lead + (TrimWhite(s) + trail) == lead + TrimWhite(s) + trail;
  }

  /** Trimming the start drops a run of white space. */
  lemma {:induction false} TrimStartSplit(s: string) returns (lead: string)
    ensures s == lead + TrimStartWhite(s) && AllNumberWhite(lead)
    decreases |s|
  {
    if s != [] && IsNumberWhite(s[0]) {
      var rest := TrimStartSplit(s[1..]);
      lead := [s[0]] + rest;
      assert s == [s[0]] + s[1..];
    } else {
      lead := [];
    }
  }

  /** Trimming the end drops a run of white space. */
  lemma {:induction false} TrimEndSplit(a: string) returns (trail: string)
    ensures a == TrimEndWhite(a) + trail && AllNumberWhite(trail)
    decreases |a|
  {
    if a != [] && IsNumberWhite(a[|a| - 1]) {
      var rest := TrimEndSplit(a[..|a| - 1]);
      trail := rest + [a[|a| - 1]];
      assert a == a[..|a| - 1] + [a[|a| - 1]];
    } else {
      trail := [];
    }
  }

  /** Trimming text that neither starts nor ends with white space drops exactly the white space around it. */
  lemma {:induction false} TrimWhiteOfParts(lead: string, m: string, trail: string)
    requires AllNumberWhite(lead) && AllNumberWhite(trail)
    requires |m| >= 1 && !IsNumberWhite(m[0]) && !IsNumberWhite(m[|m| - 1])
    ensures TrimWhite(lead + m + trail) == m
  {
    assert lead + m + trail == lead + (m + trail);
    TrimStartLead(lead, m + trail);
    assert (m + trail)[0] == m[0];
    TrimEndTrail(m, trail);
  }

  /** Decimal digits after an optional sign; a negative sign only before a zero value. */
  function ParseSigned(t: string): (r: Option<uint8>)
    ensures |t| >= 1 && AllDigits(t) ==> (r.Some? <==> DigitsValue(t) < 0x100)
    ensures |t| >= 1 && AllDigits(t) && r.Some? ==> r.value == DigitsValue(t)
  {
    var negative := |t| >= 1 && t[0] == '-';
    var digits := if |t| >= 1 && (t[0] == '-' || t[0] == '+') then t[1..] else t;
    match ParseDecimal(digits)
    case Some(n) => if n < 0x100 && (!negative || n == 0) then Some(n) else None
    case None => None
  }

  /**
   * byte.Parse(s), whose style is NumberStyles.Integer: optional white space, an optional
   * sign, decimal digits and optional white space. A value above 255 overflows, and a negative
   * sign is accepted only before a zero value; None where byte.Parse throws.
   */
  function ParseByte(s: string): (r: Option<uint8>)
    ensures |s| >= 1 && AllDigits(s) ==> (r.Some? <==> DigitsValue(s) < 0x100)
    ensures |s| >= 1 && AllDigits(s) && r.Some? ==> r.value == DigitsValue(s)
  {
    assert |s| >= 1 && AllDigits(s) ==> TrimWhite(s) == s by {
      if |s| >= 1 && AllDigits(s) {
        TrimWhiteOfParts([], s, []);
        assert [] + s + [] == s;
      }
    }
    ParseSigned(TrimWhite(s))
  }

  /** `lead + sign + digits + trail` is text NumberStyles.Integer reads as the byte `v`. */
  predicate ByteText(lead: string, sign: string, digits: string, trail: string, v: nat)
  {
    AllNumberWhite(lead) && AllNumberWhite(trail) && (sign == "" || sign == "+" || sign == "-") &&
    |digits| >= 1 && AllDigits(digits) && DigitsValue(digits) == v && v < 0x100 && (sign == "-" ==> v == 0)
  }

  /** Leading white space does not change what is left after trimming it. */
  lemma {:induction false} TrimStartLead(lead: string, x: string)
    requires AllNumberWhite(lead)
    ensures TrimStartWhite(lead + x) == TrimStartWhite(x)
    decreases |lead|
  {
    if lead != [] {
      assert (lead + x)[0] == lead[0] && (lead + x)[1..] == lead[1..] + x;
      TrimStartLead(lead[1..], x);
    } else {
      assert lead + x == x;
    }
  }

  /** Trailing white space does not change what is left after trimming it. */
  lemma {:induction false} TrimEndTrail(x: string, trail: string)
    requires AllNumberWhite(trail)
    ensures TrimEndWhite(x + trail) == TrimEndWhite(x)
    decreases |trail|
  {
    if trail != [] {
      var front := trail[..|trail| - 1];
      assert (x + trail)[|x + trail| - 1] == trail[|trail| - 1];
      assert (x + trail)[..|x + trail| - 1] == x + front;
      TrimEndTrail(x, front);
    } else {
      assert x + trail == x;
    }
  }

  /** The sign stage reads a sign and digits as the digits' value. */
  lemma {:induction false} ParseSignedOfParts(sign: string, digits: string)
    requires |digits| >= 1 && AllDigits(digits) && DigitsValue(digits) < 0x100
    requires sign == "" || sign == "+" || (sign == "-" && DigitsValue(digits) == 0)
    ensures ParseSigned(sign + digits) == Some(DigitsValue(digits))
  {
    if sign != "" {
      assert (sign + digits)[0] == sign[0] && (sign + digits)[1..] == digits;
    } else {
      assert sign + digits == digits;
    }
  }

  /** What the sign stage accepts is a sign and digits. */
  lemma {:induction false} ParseSignedSplit(t: string) returns (sign: string, digits: string)
    requires ParseSigned(t).Some?
    ensures t == sign + digits && (sign == "" || sign == "+" || sign == "-")
    ensures |digits| >= 1 && AllDigits(digits) && DigitsValue(digits) == ParseSigned(t).value
    ensures sign == "-" ==> ParseSigned(t).value == 0
  {
    if |t| >= 1 && (t[0] == '-' || t[0] == '+') {
      sign, digits := t[..1], t[1..];
    } else {
      sign, digits := "", t;
    }
    assert t == sign + digits;
  }

  /** byte.Parse reads every text of the NumberStyles.Integer form as its value. */
  lemma {:induction false} ParseByteOfParts(lead: string, sign: string, digits: string, trail: string)
    requires |digits| >= 1 && AllDigits(digits)
    requires ByteText(lead, sign, digits, trail, DigitsValue(digits))
    ensures ParseByte(lead + sign + digits + trail) == Some(DigitsValue(digits))
  {
    var m := sign + digits;
    assert m[|m| - 1] == digits[|digits| - 1];
    assert m[0] == (if sign == "" then digits[0] else sign[0]);
    assert lead + sign + digits + trail == lead + m + trail;
    TrimWhiteOfParts(lead, m, trail);
    ParseSignedOfParts(sign, digits);
  }

  /** Every text byte.Parse accepts has the NumberStyles.Integer form, with the value it returns. */
  lemma {:induction false} ParseByteParts(s: string)
    requires ParseByte(s).Some?
    ensures exists lead, sign, digits, trail :: s == lead + sign + digits + trail &&
                                               ByteText(lead, sign, digits, trail, ParseByte(s).value)
  {
    var lead, trail := TrimWhiteSplit(s);
    var sign, digits := ParseSignedSplit(TrimWhite(s));
    assert s == lead + sign + digits + trail;
    assert ByteText(lead, sign, digits, trail, ParseByte(s).value);
  }

  /** byte.Parse reads a byte's decimal text back, whatever white space and plus sign surround it. */
  lemma {:induction false} ParseByteOfDecimal(lead: string, sign: string, b: uint8, trail: string)
    requires AllNumberWhite(lead) && AllNumberWhite(trail) && (sign == "" || sign == "+")
    ensures ParseByte(lead + sign + DecimalString(b) + trail) == Some(b)
  {
    DigitsOfDecimalString(b);
    ParseByteOfParts(lead, sign, DecimalString(b), trail);
  }

  /** A negative sign before a nonzero value overflows, so byte.Parse throws. */
  lemma {:induction false} ParseByteRefusesNegative(digits: string)
    requires |digits| >= 1 && AllDigits(digits) && DigitsValue(digits) > 0
    ensures ParseByte("-" + digits) == None
  {
    var t := "-" + digits;
    assert t[0] == '-' && t[|t| - 1] == digits[|digits| - 1];
    TrimWhiteOfParts([], t, []);
    assert [] + t + [] == t;
    assert t[1..] == digits;
  }

  lemma {:induction false} DigitsOfDecimalString(n: nat)
    ensures DigitsValue(DecimalString(n)) == n
    decreases n
  {
    var s := DecimalString(n);
    if n < 10 {
      assert s[..|s| - 1] == [];
    } else {
      DigitsOfDecimalString(n / 10);
      assert s[..|s| - 1] == DecimalString(n / 10);
    }
  }

  /** Formatting then parsing a number gives the number back. */
  lemma {:induction false} ParseDecimalString(n: nat)
    ensures ParseDecimal(DecimalString(n)) == Some(n)
  {
    DigitsOfDecimalString(n);
  }

  /** byte.Parse accepts the text of every byte and returns that byte. */
  lemma {:induction false} ParseByteDecimalString(b: uint8)
    ensures ParseByte(DecimalString(b)) == Some(b)
  {
    ParseDecimalString(b);
  }

  /** string.Split(c): every piece between separators, empty pieces included. */
  function Split(s: string, c: char): (parts: seq<string>)
    ensures |parts| >= 1
    ensures forall i :: 0 <= i < |parts| ==> c !in parts[i]
  {
    if s == [] then [""]
    else
      var rest := Split(s[1..], c);
      if s[0] == c then [""] + rest else [[s[0]] + rest[0]] + rest[1..]
  }

  /** string.Join(c, parts). */
  function Join(parts: seq<string>, c: char): string
    requires |parts| >= 1
  {
    if |parts| == 1 then parts[0] else parts[0] + [c] + Join(parts[1..], c)
  }

  /** Joining digit strings gives only digits and the separator. */
  lemma {:induction false} JoinDigits(parts: seq<string>, c: char)
    requires |parts| >= 1 && forall i :: 0 <= i < |parts| ==> AllDigits(parts[i])
    ensures forall i :: 0 <= i < |Join(parts, c)| ==> Join(parts, c)[i] == c || IsDigit(Join(parts, c)[i])
  {
    if |parts| > 1 {
      JoinDigits(parts[1..], c);
      var tail := Join(parts[1..], c);
      assert AllDigits(parts[0]);
      forall i | 0 <= i < |Join(parts, c)| ensures Join(parts, c)[i] == c || IsDigit(Join(parts, c)[i]) {
        if i > |parts[0]| {
          assert Join(parts, c)[i] == tail[i - |parts[0]| - 1];
        }
      }
    }
  }

  /** Splitting at a character and joining with it again gives the original text. */
  lemma {:induction false} JoinSplit(s: string, c: char)
    ensures Join(Split(s, c), c) == s
  {
    if s != [] {
      var rest := Split(s[1..], c);
      JoinSplit(s[1..], c);
      if s[0] == c {
        assert Split(s, c) == [""] + rest;
      } else {
        var parts := Split(s, c);
        assert parts == [[s[0]] + rest[0]] + rest[1..];
        if |rest| == 1 {
          assert Join(parts, c) == [s[0]] + rest[0];
        } else {
          assert parts[1..] == rest[1..];
          assert Join(parts, c) == [s[0]] + (rest[0] + [c] + Join(rest[1..], c));
        }
        assert s == [s[0]] + s[1..];
      }
    }
  }

  /** Text without the separator splits into itself alone. */
  lemma {:induction false} SplitWithoutSeparator(s: string, c: char)
    requires c !in s
    ensures Split(s, c) == [s]
  {
    if s != [] {
      SplitWithoutSeparator(s[1..], c);
      assert s == [s[0]] + s[1..];
    }
  }

  /** A separator after separator-free text ends the first piece there. */
  lemma {:induction false} SplitAfterPiece(a: string, c: char, b: string)
    requires c !in a
    ensures Split(a + [c] + b, c) == [a] + Split(b, c)
  {
    if a == [] {
      assert a + [c] + b == [c] + b;
      assert ([c] + b)[1..] == b;
    } else {
      var s := a + [c] + b;
      assert s[1..] == a[1..] + [c] + b;
      SplitAfterPiece(a[1..], c, b);
      assert a == [a[0]] + a[1..];
    }
  }

  /** Joining two separator-free pieces with the separator and splitting again gives the pieces back. */
  lemma {:induction false} SplitPair(a: string, c: char, b: string)
    requires c !in a && c !in b
    ensures Split(a + [c] + b, c) == [a, b]
  {
    SplitAfterPiece(a, c, b);
    SplitWithoutSeparator(b, c);
  }

  /** Joining separator-free pieces and splitting again gives the pieces back. */
  lemma {:induction false} SplitJoin(parts: seq<string>, c: char)
    requires |parts| >= 1 && forall i :: 0 <= i < |parts| ==> c !in parts[i]
    ensures Split(Join(parts, c), c) == parts
  {
    if |parts| == 1 {
      SplitWithoutSeparator(parts[0], c);
    } else {
      SplitJoin(parts[1..], c);
      SplitAfterPiece(parts[0], c, Join(parts[1..], c));
      assert parts == [parts[0]] + parts[1..];
    }
  }

  /** `Split(c)[1]`: the second piece, or None where the indexer throws. */
  function SecondPiece(s: string, c: char): (r: Option<string>)
    ensures r.Some? <==> c in s
    ensures r.Some? ==> c !in r.value
  {
    var pieces := Split(s, c);
    SplitHasSeparator(s, c);
    if |pieces| >= 2 then Some(pieces[1]) else None
  }

  /** Text with the separator in it splits into at least two pieces, and only such text does. */
  lemma {:induction false} SplitHasSeparator(s: string, c: char)
    ensures |Split(s, c)| >= 2 <==> c in s
  {
    if s != [] {
      SplitHasSeparator(s[1..], c);
      assert c in s <==> s[0] == c || c in s[1..];
    }
  }

  /** The ordinal form of string.StartsWith. */
  predicate StartsWith(s: string, prefix: string) { prefix <= s }

  /** Index of the first element of `lines` that starts with `prefix` (Enumerable.First with that test). */
  function FirstWithPrefix(lines: seq<string>, prefix: string): (r: Option<nat>)
    ensures r.Some? ==> r.value < |lines| && StartsWith(lines[r.value], prefix)
    ensures r.Some? ==> forall j :: 0 <= j < r.value ==> !StartsWith(lines[j], prefix)
    ensures r.None? ==> forall j :: 0 <= j < |lines| ==> !StartsWith(lines[j], prefix)
  {
    if lines == [] then None
    else if StartsWith(lines[0], prefix) then Some(0)
    else match FirstWithPrefix(lines[1..], prefix)
      case None => None
      case Some(i) => Some(i + 1)
  }
}
