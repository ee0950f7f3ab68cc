/** The Python string built-ins the game relies on, over Unicode strings:
    `str.strip()`, `str.split(sep)`, `int(text)` and the decimal text of an
    integer (`str(n)`, which an f-string uses). */
module Strings {
  import opened Wrappers

  /** The characters `str.isspace()` accepts, which `strip()` discards. */
  predicate IsSpace(c: char) {
    c == ' ' || ('\t' <= c <= '\r') || ('\U{1C}' <= c <= '\U{1F}')
    || c == '\U{85}' || c == '\U{A0}' || c == '\U{1680}'
    || ('\U{2000}' <= c <= '\U{200A}') || c == '\U{2028}' || c == '\U{2029}'
    || c == '\U{202F}' || c == '\U{205F}' || c == '\U{3000}'
  }

  /** The two sets of blanks that are trimmed: `str.strip()` trims every
      `isspace()` character, while `int()` first turns non-ASCII whitespace
      into a space and then skips only space, `\t`, `\n`, `\v`, `\f` and
      `\r`, so the separators U+001C to U+001F stay and are refused. */
  datatype Blanks = StrBlanks | IntBlanks

  predicate Blank(b: Blanks, c: char) {
    IsSpace(c) && (b == IntBlanks ==> !('\U{1C}' <= c <= '\U{1F}'))
  }

  predicate NoSpace(s: string) {
    forall i :: 0 <= i < |s| ==> !IsSpace(s[i])
  }

  predicate AllBlank(b: Blanks, s: string) {
    forall i :: 0 <= i < |s| ==> Blank(b, s[i])
  }

  /** True when `s` is empty or neither starts nor ends with a blank. */
  predicate Trimmed(b: Blanks, s: string) {
    s == [] || (!Blank(b, s[0]) && !Blank(b, s[|s| - 1]))
  }

  /** `s.lstrip()`, for the blanks `b` */
  function TrimLeft(b: Blanks, s: string): (r: string)
    ensures |r| <= |s|
    ensures r == [] || !Blank(b, r[0])
  {
    if s != [] && Blank(b, s[0]) then TrimLeft(b, s[1..]) else s
  }

  /** `s.rstrip()`, for the blanks `b` */
  function TrimRight(b: Blanks, s: string): (r: string)
    ensures |r| <= |s| && r == s[..|r|]
    ensures r == [] || !Blank(b, r[|r| - 1])
  {
    if s != [] && Blank(b, s[|s| - 1]) then TrimRight(b, s[..|s| - 1]) else s
  }

  /** `s.strip()` */
  function Strip(s: string): (r: string)
    ensures |r| <= |s| && Trimmed(StrBlanks, r)
  {
    TrimRight(StrBlanks, TrimLeft(StrBlanks, s))
  }

  /** The whitespace `int()` skips around its digits. */
  function IntStrip(s: string): (r: string)
    ensures |r| <= |s| && Trimmed(IntBlanks, r)
  {
    TrimRight(IntBlanks, TrimLeft(IntBlanks, s))
  }

  lemma {:induction false} TrimLeftPadded(b: Blanks, pre: string, rest: string)
    requires AllBlank(b, pre) && (rest == [] || !Blank(b, rest[0]))
    ensures TrimLeft(b, pre + rest) == rest
    decreases |pre|
  {
    if pre == [] {
      assert pre + rest == rest;
    } else {
      assert (pre + rest)[1..] == pre[1..] + rest;
      TrimLeftPadded(b, pre[1..], rest);
    }
  }

  lemma {:induction false} TrimRightPadded(b: Blanks, rest: string, post: string)
    requires AllBlank(b, post) && (rest == [] || !Blank(b, rest[|rest| - 1]))
    ensures TrimRight(b, rest + post) == rest
    decreases |post|
  {
    if post == [] {
      assert rest + post == rest;
    } else {
      var s := rest + post;
      assert s[..|s| - 1] == rest + post[..|post| - 1];
      TrimRightPadded(b, rest, post[..|post| - 1]);
    }
  }

  /** Strip removes exactly the whitespace padding around a trimmed core. */
  lemma StripPadded(pre: string, core: string, post: string)
    requires AllBlank(StrBlanks, pre) && AllBlank(StrBlanks, post) && Trimmed(StrBlanks, core)
    ensures Strip(pre + core + post) == core
  {
    if core == [] {
      assert pre + core + post == (pre + post) + [];
      TrimLeftPadded(StrBlanks, pre + post, []);
      assert TrimRight(StrBlanks, []) == [];
    } else {
      assert pre + core + post == pre + (core + post);
      TrimLeftPadded(StrBlanks, pre, core + post);
      TrimRightPadded(StrBlanks, core, post);
    }
  }

  /** A text already trimmed of the blanks `b` is left as it is. */
  lemma TrimsTrimmed(b: Blanks, s: string)
    requires Trimmed(b, s)
    ensures TrimRight(b, TrimLeft(b, s)) == s
  {
    TrimLeftPadded(b, [], s);
    assert [] + s == s && s + [] == s;
    TrimRightPadded(b, s, []);
  }

  /** Stripping twice is stripping once. */
  lemma StripIdempotent(s: string)
    ensures Strip(Strip(s)) == Strip(s)
  {
    TrimsTrimmed(StrBlanks, Strip(s));
  }

  /** The text `fields` separated by `sep`; the inverse of Split. */
  function Join(fields: seq<string>, sep: char): string
  {
    if |fields| == 0 then []
    else if |fields| == 1 then fields[0]
    else fields[0] + [sep] + Join(fields[1..], sep)
  }

  /** `s.split(sep)` for a one-character separator: never empty, no piece holds
      the separator, and joining the pieces gives `s` back. */
  function Split(s: string, sep: char): (r: seq<string>)
    ensures |r| >= 1
    ensures forall k :: 0 <= k < |r| ==> sep !in r[k]
    ensures Join(r, sep) == s
  {
    if s == [] then [[]]
    else
      var rest := Split(s[1..], sep);
      if s[0] == sep then
        assert ([[]] + rest)[1..] == rest;
        [[]] + rest
      else
        var r := [[s[0]] + rest[0]] + rest[1..];
        assert r[1..] == rest[1..];
        assert |rest| > 1 ==> Join(rest, sep) == rest[0] + [sep] + Join(rest[1..], sep);
        r
  }

  lemma {:induction false} SplitConsPiece(a: string, t: string, sep: char)
    requires sep !in a
    ensures Split(a + t, sep) == [a + Split(t, sep)[0]] + Split(t, sep)[1..]
    decreases |a|
  {
    if a == [] {
      assert a + t == t;
      assert a + Split(t, sep)[0] == Split(t, sep)[0];
      assert Split(t, sep) == [Split(t, sep)[0]] + Split(t, sep)[1..];
    } else {
      assert (a + t)[1..] == a[1..] + t;
      assert (a + t)[0] == a[0];
      SplitConsPiece(a[1..], t, sep);
      assert [a[0]] + (a[1..] + Split(t, sep)[0]) == a + Split(t, sep)[0];
    }
  }

  /** A leading separator splits off an empty piece. */
  lemma SplitLeadingSep(t: string, sep: char)
    ensures Split([sep] + t, sep) == [[]] + Split(t, sep)
  {
    assert ([sep] + t)[1..] == t;
  }

  /** Splitting joined separator-free pieces gives back the pieces. */
  lemma {:induction false} SplitJoin(fields: seq<string>, sep: char)
    requires |fields| >= 1
    requires forall k :: 0 <= k < |fields| ==> sep !in fields[k]
    ensures Split(Join(fields, sep), sep) == fields
    decreases |fields|
  {
    if |fields| == 1 {
      SplitConsPiece(fields[0], [], sep);
      assert fields[0] + [] == fields[0];
    } else {
      var rest := fields[1..];
      var tail := Join(rest, sep);
      assert Join(fields, sep) == fields[0] + ([sep] + tail);
      SplitJoin(rest, sep);
      SplitLeadingSep(tail, sep);
      var pieces := [[]] + rest;
      assert pieces[0] == [] && pieces[1..] == rest;
      SplitConsPiece(fields[0], [sep] + tail, sep);
      assert fields[0] + [] == fields[0];
      assert [fields[0]] + rest == fields;
    }
  }

  predicate IsDigit(c: char) {
    '0' <= c <= '9'
  }

  function DigitValue(c: char): nat
    requires IsDigit(c)
  {
    c as int - '0' as int
  }

  function DigitChar(d: nat): (c: char)
    requires d < 10
    ensures IsDigit(c) && DigitValue(c) == d
  {
    (d + '0' as int) as char
  }

  /** The digit strings `int()` accepts after its sign: decimal digits, where
      a single underscore may separate two digits. */
  predicate DigitGroups(t: string)
    decreases |t|
  {
    |t| > 0 && IsDigit(t[|t| - 1])
    && (|t| == 1 ||
        if t[|t| - 2] == '_' then DigitGroups(t[..|t| - 2]) else DigitGroups(t[..|t| - 1]))
  }

  /** The decimal value of digit groups, underscores skipped. */
  function DigitsValue(t: string): nat
    requires DigitGroups(t)
    decreases |t|
  {
    if |t| == 1 then DigitValue(t[0])
    else if t[|t| - 2] == '_' then 10 * DigitsValue(t[..|t| - 2]) + DigitValue(t[|t| - 1])
    else 10 * DigitsValue(t[..|t| - 1]) + DigitValue(t[|t| - 1])
  }

  function ParseUnsigned(t: string): Option<int>
  {
    if DigitGroups(t) then Some(DigitsValue(t)) else None
  }

  /** An optional sign, then digit groups. */
  function ParseSigned(t: string): Option<int>
  {
    if |t| > 0 && (t[0] == '+' || t[0] == '-') then
      match ParseUnsigned(t[1..])
      case None => None
      case Some(m) => Some(if t[0] == '-' then -m else m)
    else
      ParseUnsigned(t)
  }

  /** `int(s)` in base 10: the whitespace `int()` skips, an optional sign,
      then digit groups; `None` stands for the ValueError raised on anything
      else. */
  function ParseInt(s: string): Option<int>
  {
    ParseSigned(IntStrip(s))
  }

  /** `str(n)` for a natural number: its decimal digits, no leading zero. */
  function NatToString(n: nat): (r: string)
    ensures |r| >= 1 && forall i :: 0 <= i < |r| ==> IsDigit(r[i])
    ensures |r| > 1 ==> r[0] != '0'
  {
    if n < 10 then [DigitChar(n)] else NatToString(n / 10) + [DigitChar(n % 10)]
  }

  /** `str(n)`: a minus sign for negative numbers, then the digits of `|n|`. */
  function IntToString(n: int): (r: string)
    ensures |r| >= 1 && NoSpace(r) && ',' !in r
    ensures n < 0 <==> r[0] == '-'
  {
    var r := if n < 0 then "-" + NatToString(-n) else NatToString(n);
    assert forall i :: 0 <= i < |r| ==> IsDigit(r[i]) || r[i] == '-';
    r
  }

  lemma {:induction false} NatToStringValue(n: nat)
    ensures DigitGroups(NatToString(n)) && DigitsValue(NatToString(n)) == n
  {
    if n >= 10 {
      NatToStringValue(n / 10);
      var s := NatToString(n / 10) + [DigitChar(n % 10)];
      assert s[..|s| - 1] == NatToString(n / 10);
    }
  }

  lemma ParseUnsignedNatToString(n: nat)
    ensures ParseUnsigned(NatToString(n)) == Some(n)
  {
    NatToStringValue(n);
  }

  lemma ParseSignedIntToString(n: int)
    ensures ParseSigned(IntToString(n)) == Some(n)
  {
    if n < 0 {
      var r := "-" + NatToString(-n);
      assert r[1..] == NatToString(-n);
      ParseUnsignedNatToString(-n);
    } else {
      ParseUnsignedNatToString(n);
    }
  }

  /** Reading back the decimal text of any integer gives the integer. */
  lemma ParseIntToString(n: int)
    ensures ParseInt(IntToString(n)) == Some(n)
  {
    TrimsTrimmed(IntBlanks, IntToString(n));
    ParseSignedIntToString(n);
  }

  /** Digit groups start with a digit. */
  lemma {:induction false} DigitGroupsStart(t: string)
    requires DigitGroups(t)
    ensures IsDigit(t[0])
    decreases |t|
  {
    if |t| > 1 {
      if t[|t| - 2] == '_' {
        DigitGroupsStart(t[..|t| - 2]);
      } else {
        DigitGroupsStart(t[..|t| - 1]);
      }
    }
  }

  /** Right-trimming a text that starts with a non-blank keeps that start. */
  lemma {:induction false} TrimRightKeepsStart(b: Blanks, s: string)
    requires s != [] && !Blank(b, s[0])
    ensures TrimRight(b, s) != [] && TrimRight(b, s)[0] == s[0]
    decreases |s|
  {
    if |s| > 1 && Blank(b, s[|s| - 1]) {
      TrimRightKeepsStart(b, s[..|s| - 1]);
    }
  }

  /** `int()` raises ValueError on a text that starts with one of the
      separators U+001C to U+001F, which `strip()` would have removed. */
  lemma ParseIntRefusesSeparator(c: char, t: string)
    requires '\U{1C}' <= c <= '\U{1F}'
    ensures ParseInt([c] + t).None?
    ensures Strip([c] + t) == Strip(t)
  {
    var s := [c] + t;
    assert TrimLeft(IntBlanks, s) == s;
    TrimRightKeepsStart(IntBlanks, s);
    var r := IntStrip(s);
    if DigitGroups(r) {
      DigitGroupsStart(r);
    }
    assert s[1..] == t;
  }
}
