/** `str(n)` and `int(s)` for Python integers in base ten. */
module Decimal {
  import opened Common

  function DigitChar(d: nat): char
    requires d < 10
  {
    '0' + d as char
  }

  function NatText(n: nat): string {
    (if n < 10 then "" else NatText(n / 10)) + [DigitChar(n % 10)]
  }

  function IntText(n: int): string {
    if n < 0 then "-" + NatText(-n) else NatText(n)
  }

  predicate IsDigit(c: char) { '0' <= c <= '9' }

  /** Digits with single underscores between them; `after` says a digit came just before. */
  function DigitsValue(s: string, acc: nat, after: bool): Option<nat> {
    if s == "" then if after then Some(acc) else None
    else if IsDigit(s[0]) then DigitsValue(s[1..], acc * 10 + (s[0] - '0') as nat, true)
    else if s[0] == '_' && after then DigitsValue(s[1..], acc, false)
    else None
  }

  predicate IsSpace(c: char) { c in " \t\n\r" || c == 11 as char || c == 12 as char }

  function StripLeft(s: string): string {
    if s != "" && IsSpace(s[0]) then StripLeft(s[1..]) else s
  }

  function StripRight(s: string): string {
    if s != "" && IsSpace(s[|s| - 1]) then StripRight(s[..|s| - 1]) else s
  }

  /** `int(s)`; None stands for its ValueError. */
  function ParseInt(s: string): Option<int> {
    var t := StripRight(StripLeft(s));
    if t == "" then None
    else
      var m := DigitsValue(if t[0] in "+-" then t[1..] else t, 0, false);
      if m.None? then None
      else
        var n: int := m.value;
        Some(if t[0] == '-' then -n else n)
  }


  lemma {:induction false} NatTextIsDigits(n: nat)
    ensures |NatText(n)| > 0 && forall i :: 0 <= i < |NatText(n)| ==> IsDigit(NatText(n)[i])
    decreases n
  {
    if n >= 10 { NatTextIsDigits(n / 10); }
  }

  lemma {:induction false} DigitsThenDigit(s: string, acc: nat, after: bool, c: char)
    requires IsDigit(c) && DigitsValue(s, acc, after).Some?
    ensures DigitsValue(s + [c], acc, after) == Some(DigitsValue(s, acc, after).value * 10 + (c - '0') as nat)
    decreases |s|
  {
    if s == "" {
      assert (s + [c])[1..] == "";
    } else {
      assert (s + [c])[1..] == s[1..] + [c];
      if IsDigit(s[0]) {
        DigitsThenDigit(s[1..], acc * 10 + (s[0] - '0') as nat, true, c);
      } else {
        DigitsThenDigit(s[1..], acc, false, c);
      }
    }
  }

  lemma {:induction false} NatTextValue(n: nat)
    ensures DigitsValue(NatText(n), 0, false) == Some(n)
    decreases n
  {
    var c := DigitChar(n % 10);
    assert IsDigit(c) && (c - '0') as nat == n % 10;
    if n < 10 {
      assert NatText(n) == [c] && [c][1..] == "";
    } else {
      NatTextValue(n / 10);
      DigitsThenDigit(NatText(n / 10), 0, false, c);
    }
  }

  /** Reading back a printed integer, negative ones included. */
  lemma ParseUndoesPrint(n: int)
    ensures ParseInt(IntText(n)) == Some(n)
  {
    var s := IntText(n);
    NatTextIsDigits(if n < 0 then -n else n);
    NatTextValue(if n < 0 then -n else n);
    assert !IsSpace(s[0]) && !IsSpace(s[|s| - 1]);
    if n < 0 { assert s[1..] == NatText(-n); }
  }

  lemma PrintIsInjective(m: int, n: int)
    ensures IntText(m) == IntText(n) ==> m == n
  {
    ParseUndoesPrint(m);
    ParseUndoesPrint(n);
  }

  lemma DigitIs(d: nat)
    requires d < 10
    ensures DigitChar(d) == "0123456789"[d]
  {
  }

  lemma LastDigit(m: nat, d: nat)
    requires d < 10
    ensures (10 * m + d) / 10 == m && (10 * m + d) % 10 == d
  {
  }

  /** Only negative numbers have a sign. */
  lemma SignIs(n: int)
    ensures IntText(n) == if n >= 0 then NatText(n) else "-" + NatText(-n)
  {
  }

  /** Blanks around the number are no matter. */
  lemma {:induction false} BlanksAreNoMatter(c: char, s: string)
    requires c == ' ' || c == '\t' || c == '\n' || c == '\r' || c as int == 11 || c as int == 12
    ensures ParseInt([c] + s) == ParseInt(s) && ParseInt(s + [c]) == ParseInt(s)
  {
    assert IsSpace(c);
    assert ([c] + s)[1..] == s;
    StripBlankRight(s, c);
  }

  lemma {:induction false} StripBlankRight(s: string, c: char)
    requires IsSpace(c)
    ensures StripRight(StripLeft(s + [c])) == StripRight(StripLeft(s))
    decreases |s|
  {
    if s != "" && IsSpace(s[0]) {
      assert (s + [c])[1..] == s[1..] + [c];
      StripBlankRight(s[1..], c);
    } else if s != "" {
      assert (s + [c])[..|s|] == s;
    } else {
      assert s + [c] == [c] && [c][1..] == "";
    }
  }

  /** Anything else than digits, signs, underscores and blanks raises. */
  lemma OtherCharactersRaise(s: string, i: nat)
    requires i < |s| && !('0' <= s[i] <= '9') && s[i] !in {'+', '-', '_', ' ', '\t', '\n', '\r'}
    requires s[i] as int != 11 && s[i] as int != 12
    ensures ParseInt(s) == None
  {
    var c := s[i];
    assert !IsSpace(c);
    StrippedStillHas(s, c);
    var t := StripRight(StripLeft(s));
    hide StripLeft, StripRight;
    if t != "" {
      var u := if t[0] in "+-" then t[1..] else t;
      assert t == [t[0]] + t[1..];
      assert c in u;
      NoValueWith(u, 0, false, c);
    }
  }

  lemma {:induction false} StrippedStillHas(s: string, c: char)
    requires c in s && !IsSpace(c)
    ensures c in StripRight(StripLeft(s))
    decreases |s|
  {
    if IsSpace(s[0]) {
      assert s == [s[0]] + s[1..];
      StrippedStillHas(s[1..], c);
    } else {
      RightStrippedStillHas(s, c);
    }
  }

  lemma {:induction false} RightStrippedStillHas(s: string, c: char)
    requires c in s && !IsSpace(c)
    ensures c in StripRight(s)
    decreases |s|
  {
    var n := |s| - 1;
    if IsSpace(s[n]) {
      assert s == s[..n] + [s[n]];
      RightStrippedStillHas(s[..n], c);
    }
  }

  lemma {:induction false} NoValueWith(s: string, acc: nat, after: bool, c: char)
    requires c in s && !IsDigit(c) && c != '_'
    ensures DigitsValue(s, acc, after) == None
    decreases |s|
  {
    assert s == [s[0]] + s[1..];
    if IsDigit(s[0]) {
      NoValueWith(s[1..], acc * 10 + (s[0] - '0') as nat, true, c);
    } else if s[0] == '_' && after {
      NoValueWith(s[1..], acc, false, c);
    }
  }

  lemma Unblanked(s: string)
    requires s != "" && !IsSpace(s[0]) && !IsSpace(s[|s| - 1])
    ensures StripRight(StripLeft(s)) == s
  {
  }

  lemma DigitsWithUnderscores(d: char, e: char)
    requires IsDigit(d) && IsDigit(e)
    ensures DigitsValue([d, e], 0, false) == DigitsValue([d, '_', e], 0, false)
         == Some((d - '0') as nat * 10 + (e - '0') as nat)
    ensures DigitsValue(['_', d], 0, false) == DigitsValue([d, '_'], 0, false) == None
    ensures DigitsValue([d, '_', '_', e], 0, false) == None
  {
    var x := (d - '0') as nat;
    assert [d, e][1..] == [e] && [e][1..] == "" && [d, '_'][1..] == "_" && "_"[1..] == "";
    assert [d, '_', e][1..] == ['_', e] && ['_', e][1..] == [e];
    assert [d, '_', '_', e][1..] == ['_', '_', e] && ['_', '_', e][1..] == ['_', e];
    var y := (e - '0') as nat;
    assert DigitsValue("", x * 10 + y, true) == Some(x * 10 + y);
    assert DigitsValue([e], x, true) == DigitsValue([e], x, false) == Some(x * 10 + y);
    assert 0 * 10 + x == x;
    assert DigitsValue([d, e], 0, false) == DigitsValue([e], x, true);
    assert DigitsValue([d, '_', e], 0, false) == DigitsValue(['_', e], x, true);
    assert DigitsValue("", x, false) == None;
    assert DigitsValue("_", x, true) == DigitsValue("", x, false);
    assert DigitsValue(['_', e], x, true) == DigitsValue([e], x, false);
    assert DigitsValue(['_', '_', e], x, true) == DigitsValue(['_', e], x, false) == None;
  }

  /** A plus sign is allowed, and a single underscore between digits; a sign or nothing alone, and
      underscores elsewhere, raise. */
  lemma PlusAndUnderscores(d: char, e: char)
    requires IsDigit(d) && IsDigit(e)
    ensures ParseInt([d, e]) == ParseInt(['+', d, e]) == ParseInt([d, '_', e])
         == Some((d - '0') as nat * 10 + (e - '0') as nat)
    ensures ParseInt("") == ParseInt("+") == ParseInt("-") == None
    ensures ParseInt(['_', d]) == ParseInt([d, '_']) == ParseInt([d, '_', '_', e]) == None
  {
    DigitsWithUnderscores(d, e);
    Unblanked([d, e]);
    Unblanked(['+', d, e]);
    Unblanked([d, '_', e]);
    Unblanked(['_', d]);
    Unblanked([d, '_']);
    Unblanked([d, '_', '_', e]);
    Unblanked("+");
    Unblanked("-");
    hide StripLeft, StripRight, IsSpace;
    assert ['+', d, e][1..] == [d, e] && "+"[1..] == "" && "-"[1..] == "";
    assert DigitsValue("", 0, false) == None;
    assert ParseInt("") == None by { EmptyIsNoNumber(); }
    assert d !in "+-" && '_' !in "+-";
    assert ParseInt(['_', d]) == None && ParseInt([d, '_']) == None && ParseInt([d, '_', '_', e]) == None;
  }

  lemma EmptyIsNoNumber()
    ensures ParseInt("") == None
  {
  }

  /** The text is in base ten: one digit, or the text of m and then the last digit. */
  lemma TextIsDecimal(m: nat, d: nat)
    requires d < 10
    ensures NatText(10 * m + d) == (if m == 0 then "" else NatText(m)) + ["0123456789"[d]]
  {
    DigitIs(d);
    LastDigit(m, d);
    hide DigitChar;
  }
}
