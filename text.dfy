/** The few Python string operations the storefront relies on, over ASCII:
    str.strip(), str.capitalize(), str.isdigit(), str.join(), str(int),
    int(text) and the ordering Python uses to sort strings. */
module Text {
  import opened Wrappers

  // ---------------------------------------------------------------------
  // Characters

  /** The ASCII characters Python's str.isspace() accepts. */
  predicate IsSpace(c: char) {
    c == ' ' || ('\t' <= c <= '\r') || ('\U{1C}' <= c <= '\U{1F}')
  }

  predicate IsDigit(c: char) {
    '0' <= c <= '9'
  }

  predicate AllDigits(s: string) {
    forall i :: 0 <= i < |s| ==> IsDigit(s[i])
  }

  /** Python's str.isdigit(): non-empty and made of digits only. */
  predicate IsDigitText(s: string): (r: bool)
    ensures r ==> s != [] && !IsSpace(s[0]) && !IsSpace(s[|s| - 1])
  {
    |s| > 0 && AllDigits(s)
  }

  function DigitChar(d: nat): (c: char)
    requires d < 10
    ensures IsDigit(c)
  {
    (48 + d) as char
  }

  function DigitValue(c: char): (d: nat)
    requires IsDigit(c)
    ensures d < 10 && DigitChar(d) == c
  {
    (c as int) - 48
  }

  function ToUpper(c: char): char {
    if 'a' <= c <= 'z' then (c as int - 32) as char else c
  }

  function ToLower(c: char): char {
    if 'A' <= c <= 'Z' then (c as int + 32) as char else c
  }

  // ---------------------------------------------------------------------
  // str.strip()

  function TrimLeft(s: string): (r: string)
    ensures |r| <= |s|
    ensures r != [] ==> !IsSpace(r[0])
  {
    if |s| > 0 && IsSpace(s[0]) then TrimLeft(s[1..]) else s
  }

  function TrimRight(s: string): (r: string)
    ensures |r| <= |s|
    ensures r != [] ==> !IsSpace(r[|r| - 1])
  {
    if |s| > 0 && IsSpace(s[|s| - 1]) then TrimRight(s[..|s| - 1]) else s
  }

  /** TrimLeft removes a run of whitespace from the front and nothing else. */
  lemma {:induction false} TrimLeftSuffix(s: string)
    ensures TrimLeft(s) == s[|s| - |TrimLeft(s)|..]
    ensures forall k :: 0 <= k < |s| - |TrimLeft(s)| ==> IsSpace(s[k])
  {
    if |s| > 0 && IsSpace(s[0]) {
      TrimLeftSuffix(s[1..]);
      assert s[1..][|s| - 1 - |TrimLeft(s)|..] == s[|s| - |TrimLeft(s)|..];
    }
  }

  /** TrimRight removes a run of whitespace from the back and nothing else. */
  lemma {:induction false} TrimRightPrefix(s: string)
    ensures TrimRight(s) == s[..|TrimRight(s)|]
    ensures forall k :: |TrimRight(s)| <= k < |s| ==> IsSpace(s[k])
  {
    if |s| > 0 && IsSpace(s[|s| - 1]) {
      assert TrimRight(s) == TrimRight(s[..|s| - 1]);
      TrimRightPrefix(s[..|s| - 1]);
      assert s[..|s| - 1][..|TrimRight(s)|] == s[..|TrimRight(s)|];
    }
  }

  /** str.strip(): the text without leading and trailing whitespace. */
  function Strip(s: string): (r: string)
    ensures |r| <= |s|
    ensures r != [] ==> !IsSpace(r[0]) && !IsSpace(r[|r| - 1])
  {
    var t := TrimLeft(s);
    TrimRightPrefix(t);
    TrimRight(t)
  }

  /** Stripping text that neither starts nor ends with whitespace changes nothing. */
  lemma StripUnpadded(s: string)
    requires s != [] ==> !IsSpace(s[0]) && !IsSpace(s[|s| - 1])
    ensures Strip(s) == s
  {
  }

  /** Strip keeps exactly the middle of the text: what it removes is whitespace. */
  lemma StripIsSlice(s: string)
    ensures exists i, j :: 0 <= i <= j <= |s| && Strip(s) == s[i..j]
                           && (forall k :: 0 <= k < i ==> IsSpace(s[k]))
                           && (forall k :: j <= k < |s| ==> IsSpace(s[k]))
  {
    var l := TrimLeft(s);
    TrimLeftSuffix(s);
    TrimRightPrefix(l);
    var i := |s| - |l|;
    var j := i + |TrimRight(l)|;
    assert Strip(s) == s[i..j];
  }

  // ---------------------------------------------------------------------
  // str.capitalize()

  function LowerAll(s: string): (r: string)
    ensures |r| == |s| && forall i :: 0 <= i < |s| ==> r[i] == ToLower(s[i])
  {
    seq(|s|, i requires 0 <= i < |s| => ToLower(s[i]))
  }

  /** str.capitalize(): first character upper case, the rest lower case. */
  function Capitalize(s: string): (r: string)
    ensures |r| == |s|
  {
    if s == [] then [] else [ToUpper(s[0])] + LowerAll(s[1..])
  }

  lemma CapitalizeIdempotent(s: string)
    ensures Capitalize(Capitalize(s)) == Capitalize(s)
  {
    if s != [] {
      var c := Capitalize(s);
      assert ToUpper(ToUpper(s[0])) == ToUpper(s[0]);
      assert c[1..] == LowerAll(s[1..]);
      forall i | 0 <= i < |s| - 1
        ensures LowerAll(c[1..])[i] == LowerAll(s[1..])[i]
      {
      }
    }
  }

  // ---------------------------------------------------------------------
  // str.join()

  function Join(parts: seq<string>, sep: string): (r: string)
    ensures |parts| == 1 ==> r == parts[0]
    ensures |parts| == 0 ==> r == ""
    ensures |parts| > 0 ==> |parts[0]| <= |r| && r[..|parts[0]|] == parts[0]
    ensures |parts| > 0 ==> var last := parts[|parts| - 1]; |last| <= |r| && r[|r| - |last|..] == last
  {
    if |parts| == 0 then ""
    else if |parts| == 1 then parts[0]
    else parts[0] + sep + Join(parts[1..], sep)
  }

  // ---------------------------------------------------------------------
  // str(n) for integers

  function NatToString(n: nat): (s: string)
    ensures |s| >= 1 && AllDigits(s)
  {
    if n < 10 then [DigitChar(n)] else NatToString(n / 10) + [DigitChar(n % 10)]
  }

  function IntToString(n: int): (s: string)
    ensures |s| >= 1
  {
    if n < 0 then "-" + NatToString(-n) else NatToString(n)
  }

  /** The number a string of decimal digits denotes. */
  function DigitsValue(s: string): nat
    requires AllDigits(s)
  {
    if s == [] then 0 else DigitsValue(s[..|s| - 1]) * 10 + DigitValue(s[|s| - 1])
  }

  lemma {:induction false} NatToStringValue(n: nat)
    ensures DigitsValue(NatToString(n)) == n
  {
    var s := NatToString(n);
    if n >= 10 {
      NatToStringValue(n / 10);
      assert s[..|s| - 1] == NatToString(n / 10);
    }
  }

  // ---------------------------------------------------------------------
  // int(text)

  /** Python's int() accepts decimal digits with single underscores between them. */
  predicate DigitGroups(t: string) {
    |t| > 0 && IsDigit(t[0]) && forall i :: 0 <= i < |t| ==> GroupChar(t, i)
  }

  /** Position i holds a digit, or an underscore followed by a digit. */
  predicate GroupChar(t: string, i: nat)
    requires i < |t|
  {
    IsDigit(t[i]) || (t[i] == '_' && i + 1 < |t| && IsDigit(t[i + 1]))
  }

  function RemoveUnderscores(t: string): (r: string)
    ensures |r| <= |t|
    ensures (forall i :: 0 <= i < |t| ==> IsDigit(t[i]) || t[i] == '_') ==> AllDigits(r)
    ensures AllDigits(t) ==> r == t
  {
    if t == [] then []
    else (if t[0] == '_' then [] else [t[0]]) + RemoveUnderscores(t[1..])
  }

  /** int(text) on text without surrounding whitespace: an optional sign, then
      digit groups; anything else is a ValueError (None). */
  function ParseInt(s: string): (r: Option<int>)
    ensures r.Some? ==> s != []
  {
    if |s| == 0 then None
    else if s[0] == '-' || s[0] == '+' then
      var body := s[1..];
      if DigitGroups(body) then
        var v: int := GroupsValue(body);
        Some(if s[0] == '-' then -v else v)
      else None
    else if DigitGroups(s) then Some(GroupsValue(s))
    else None
  }

  /** The number digit groups denote: their digits, underscores skipped. */
  function GroupsValue(t: string): nat
    requires DigitGroups(t)
  {
    GroupsChars(t);
    DigitsValue(RemoveUnderscores(t))
  }

  lemma GroupsChars(t: string)
    requires DigitGroups(t)
    ensures forall i :: 0 <= i < |t| ==> IsDigit(t[i]) || t[i] == '_'
  {
    forall i | 0 <= i < |t|
      ensures IsDigit(t[i]) || t[i] == '_'
    {
      assert GroupChar(t, i);
    }
  }

  /** A non-empty run of digits is one digit group, worth its digits' value. */
  lemma DigitsAreGroups(t: string)
    requires |t| >= 1 && AllDigits(t)
    ensures DigitGroups(t) && GroupsValue(t) == DigitsValue(t)
  {
  }

  /** int(str(n)) == n: the text a number is printed as parses back to it. */
  lemma IntToStringParses(n: int)
    ensures ParseInt(IntToString(n)) == Some(n)
  {
    var d := NatToString(if n < 0 then -n else n);
    NatToStringValue(if n < 0 then -n else n);
    DigitsAreGroups(d);
    assert IsDigit(d[0]);
    if n < 0 {
      var s := "-" + d;
      assert s[0] == '-' && s[1..] == d;
    }
  }

  /** str(n) is never a text that Python would parse to a different number:
      printing is injective. */
  lemma IntToStringInjective(a: int, b: int)
    requires IntToString(a) == IntToString(b)
    ensures a == b
  {
    IntToStringParses(a);
    IntToStringParses(b);
  }

  // ---------------------------------------------------------------------
  // Python's ordering of strings (by code point, shorter prefix first)

  predicate StrLess(a: string, b: string) {
    if |a| == 0 then |b| > 0
    else if |b| == 0 then false
    else if a[0] != b[0] then a[0] < b[0]
    else StrLess(a[1..], b[1..])
  }

  lemma {:induction false} StrLessIrreflexive(a: string)
    ensures !StrLess(a, a)
  {
    if |a| > 0 {
      StrLessIrreflexive(a[1..]);
    }
  }

  lemma {:induction false} StrLessTransitive(a: string, b: string, c: string)
    requires StrLess(a, b) && StrLess(b, c)
    ensures StrLess(a, c)
  {
    if |a| > 0 && |b| > 0 && |c| > 0 && a[0] == b[0] && b[0] == c[0] {
      StrLessTransitive(a[1..], b[1..], c[1..]);
    }
  }

  lemma {:induction false} StrLessTotal(a: string, b: string)
    requires a != b
    ensures StrLess(a, b) || StrLess(b, a)
  {
    if |a| > 0 && |b| > 0 && a[0] == b[0] {
      assert a == [a[0]] + a[1..] && b == [b[0]] + b[1..];
      StrLessTotal(a[1..], b[1..]);
    }
  }
}
