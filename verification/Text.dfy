/** Text operations both sides of a printed record rely on: str.split / str.join on a
    one-character separator, and decimal numerals. */
module Text {

  import opened Wrappers

  // ---- split and join ----------------------------------------------------------------

  /** Python's s.split(sep): always at least one part. */
  function Split(s: string, sep: char): (parts: seq<string>)
    ensures |parts| >= 1
  {
    if s == "" then [""]
    else
      var rest := Split(s[1..], sep);
      if s[0] == sep then [""] + rest
      else [[s[0]] + rest[0]] + rest[1..]
  }

  /** Python's sep.join(parts) for a one-character separator. */
  function Join(parts: seq<string>, sep: char): string
  {
    if |parts| == 0 then ""
    else if |parts| == 1 then parts[0]
    else parts[0] + [sep] + Join(parts[1..], sep)
  }

  lemma {:induction false} SplitOfPlain(s: string, sep: char)
    requires sep !in s
    ensures Split(s, sep) == [s]
  {
    if s != "" {
      assert sep !in s[1..];
      SplitOfPlain(s[1..], sep);
      assert [s[0]] + s[1..] == s;
    }
  }

  lemma {:induction false} SplitAtFirst(s: string, rest: string, sep: char)
    requires sep !in s
    ensures Split(s + [sep] + rest, sep) == [s] + Split(rest, sep)
  {
    var whole := s + [sep] + rest;
    if s == "" {
      assert whole[1..] == rest;
    } else {
      assert whole[1..] == s[1..] + [sep] + rest;
      assert sep !in s[1..];
      SplitAtFirst(s[1..], rest, sep);
      assert [s[0]] + s[1..] == s;
    }
  }

  /** Splitting undoes joining exactly when no part holds the separator. */
  lemma {:induction false} SplitJoin(parts: seq<string>, sep: char)
    requires |parts| >= 1
    requires forall i :: 0 <= i < |parts| ==> sep !in parts[i]
    ensures Split(Join(parts, sep), sep) == parts
  {
    if |parts| == 1 {
      SplitOfPlain(parts[0], sep);
    } else {
      SplitAtFirst(parts[0], Join(parts[1..], sep), sep);
      SplitJoin(parts[1..], sep);
      assert parts == [parts[0]] + parts[1..];
    }
  }

  lemma {:induction false} SplitPartsArePlain(s: string, sep: char)
    ensures forall i :: 0 <= i < |Split(s, sep)| ==> sep !in Split(s, sep)[i]
  {
    if s != "" {
      SplitPartsArePlain(s[1..], sep);
      var rest := Split(s[1..], sep);
      assert sep !in rest[0];
      var parts := Split(s, sep);
      forall i | 0 <= i < |parts| ensures sep !in parts[i] {
        if i > 0 {
          assert s[0] == sep ==> parts[i] == rest[i - 1];
          assert s[0] != sep ==> parts[i] == rest[i];
        }
      }
    }
  }

  lemma {:induction false} SplitAvoids(s: string, sep: char, c: char)
    requires c !in s
    ensures forall i :: 0 <= i < |Split(s, sep)| ==> c !in Split(s, sep)[i]
  {
    if s != "" {
      SplitAvoids(s[1..], sep, c);
      var rest, parts := Split(s[1..], sep), Split(s, sep);
      forall i | 0 <= i < |parts| ensures c !in parts[i] {
        if i > 0 {
          assert s[0] == sep ==> parts[i] == rest[i - 1];
          assert s[0] != sep ==> parts[i] == rest[i];
        }
      }
    }
  }

  /** The separator occurs in the joined text only where it occurs in a part or between two parts. */
  lemma {:induction false} JoinAvoids(parts: seq<string>, sep: char, c: char)
    requires c != sep
    requires forall i :: 0 <= i < |parts| ==> c !in parts[i]
    ensures c !in Join(parts, sep)
  {
    if |parts| > 1 {
      JoinAvoids(parts[1..], sep, c);
    }
  }

  lemma {:induction false} JoinContains(parts: seq<string>, sep: char, i: nat, c: char)
    requires i < |parts| && c in parts[i]
    ensures c in Join(parts, sep)
  {
    if i > 0 {
      JoinContains(parts[1..], sep, i - 1, c);
    }
  }

  // ---- decimal numerals --------------------------------------------------------------

  predicate IsDigit(c: char) { '0' <= c <= '9' }

  predicate AllDigits(s: string) { forall i :: 0 <= i < |s| ==> IsDigit(s[i]) }

  function DigitChar(d: nat): (c: char)
    requires d < 10
    ensures IsDigit(c) && DigitValue(c) == d
  {
    '0' + d as char
  }

  function DigitValue(c: char): (d: nat)
    requires IsDigit(c)
    ensures d < 10
  {
    (c - '0') as nat
  }

  /** str(n) of a non-negative int. */
  function PrintNat(n: nat): (s: string)
  {
    if n < 10 then [DigitChar(n)] else PrintNat(n / 10) + [DigitChar(n % 10)]
  }

  /** Exactly `width` digits, zero-padded on the left; drops higher digits. */
  function PadNat(n: nat, width: nat): (s: string)
  {
    if width == 0 then "" else PadNat(n / 10, width - 1) + [DigitChar(n % 10)]
  }

  function DigitsValue(s: string): nat
    requires AllDigits(s)
  {
    if s == "" then 0 else DigitsValue(s[..|s| - 1]) * 10 + DigitValue(s[|s| - 1])
  }

  function Pow10(k: nat): (p: nat)
    ensures p >= 1
  {
    if k == 0 then 1 else 10 * Pow10(k - 1)
  }

  /** The ASCII characters that int() skips around a number. */
  predicate Blank(c: char) { c == ' ' || 9 <= c as int <= 13 }

  function StripLeft(s: string): string
  {
    if s != "" && Blank(s[0]) then StripLeft(s[1..]) else s
  }

  function Strip(s: string): (t: string)
    decreases |s|
  {
    if s != "" && Blank(s[|s| - 1]) then Strip(s[..|s| - 1]) else StripLeft(s)
  }

  /** Digits, with single underscores between them. */
  function ParseDigits(s: string): Option<nat>
  {
    var groups := Split(s, '_');
    if forall i :: 0 <= i < |groups| ==> groups[i] != "" && AllDigits(groups[i])
    then Some(GroupsValue(groups, 0)) else None
  }

  function GroupsValue(groups: seq<string>, high: nat): nat
    requires forall i :: 0 <= i < |groups| ==> AllDigits(groups[i])
  {
    if groups == [] then high
    else GroupsValue(groups[1..], high * Pow10(|groups[0]|) + DigitsValue(groups[0]))
  }

  /** int(s) on ASCII texts: blanks around it, a sign, digits and underscores; None is the ValueError. */
  function ParseInt(s: string): Option<int>
  {
    var t := Strip(s);
    var signed := t != "" && (t[0] == '-' || t[0] == '+');
    match ParseDigits(if signed then t[1..] else t)
    case Some(n) => var v: int := n; Some(if signed && t[0] == '-' then -v else v)
    case None => None
  }

  function PrintInt(n: int): string
  {
    if n < 0 then "-" + PrintNat(-n) else PrintNat(n)
  }

  lemma {:induction false} PrintNatParses(n: nat)
    ensures |PrintNat(n)| >= 1
    ensures AllDigits(PrintNat(n))
    ensures DigitsValue(PrintNat(n)) == n
  {
    if n >= 10 {
      PrintNatParses(n / 10);
      var s := PrintNat(n);
      assert s[..|s| - 1] == PrintNat(n / 10);
    } else {
      assert PrintNat(n)[..0] == "";
    }
  }

  lemma {:induction false} PadNatParses(n: nat, width: nat)
    requires n < Pow10(width)
    ensures |PadNat(n, width)| == width
    ensures AllDigits(PadNat(n, width))
    ensures DigitsValue(PadNat(n, width)) == n
  {
    if width > 0 {
      PadNatParses(n / 10, width - 1);
      var s := PadNat(n, width);
      assert s[..|s| - 1] == PadNat(n / 10, width - 1);
    }
  }

  lemma PlainDigitsParse(digits: string)
    requires digits != "" && AllDigits(digits)
    ensures ParseDigits(digits) == Some(DigitsValue(digits))
  {
    assert '_' !in digits;
    SplitOfPlain(digits, '_');
    assert [digits][1..] == [];
    assert GroupsValue([digits], 0) == GroupsValue([digits][1..], 0 * Pow10(|digits|) + DigitsValue(digits));
  }

  lemma NothingToStrip(s: string)
    requires s != "" && !Blank(s[0]) && !Blank(s[|s| - 1])
    ensures Strip(s) == s
  {
  }

  /** A sign and digits read as the number they say. */
  lemma SignedParses(sign: char, digits: string)
    requires (sign == '-' || sign == '+') && digits != "" && AllDigits(digits)
    ensures ParseInt([sign] + digits) == (var v: int := DigitsValue(digits); Some(if sign == '-' then -v else v))
  {
    hide DigitsValue, Strip, ParseDigits;
    var s := [sign] + digits;
    assert s[1..] == digits && s[|s| - 1] == digits[|digits| - 1];
    NothingToStrip(s);
    PlainDigitsParse(digits);
  }

  /** int(str(n)) == n. */
  lemma PrintIntParses(n: int)
    ensures ParseInt(PrintInt(n)) == Some(n)
    ensures forall i :: 0 <= i < |PrintInt(n)| ==> IsDigit(PrintInt(n)[i]) || PrintInt(n)[i] == '-'
  {
    hide PrintNat, DigitsValue, Strip, ParseDigits;
    if n < 0 {
      PrintNatParses(-n);
      SignedParses('-', PrintNat(-n));
    } else {
      PrintNatParses(n);
      NothingToStrip(PrintNat(n));
      PlainDigitsParse(PrintNat(n));
    }
  }
}
