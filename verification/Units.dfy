// Token amounts as people read and type them: base units to a decimal string and back.

module Units {
  import opened Base

  const MAX_AMOUNT: nat := 0xFFFF_FFFF_FFFF_FFFF_FFFF_FFFF   // 2^96 - 1

  predicate IsDigit(c: char) { '0' <= c <= '9' }

  predicate Digits(s: string) { forall i :: 0 <= i < |s| ==> IsDigit(s[i]) }

  function Digit(n: nat): (c: char)
    requires n < 10
    ensures IsDigit(c) && c as int == 48 + n
  {
    '0' + n as char
  }

  function Value(c: char): (n: nat)
    requires IsDigit(c)
    ensures n < 10 && Digit(n) == c && n == c as int - 48
  {
    (c - '0') as nat
  }

  function Pow10(k: nat): (p: nat)
    ensures p >= 1
  {
    if k == 0 then 1 else 10 * Pow10(k - 1)
  }

  // BigInt's own printing: no leading zero but for zero itself.
  function Dec(n: nat): (s: string)
    ensures s != [] && Digits(s)
  {
    if n < 10 then [Digit(n)] else Dec(n / 10) + [Digit(n % 10)]
  }

  function Num(s: string): nat
    requires Digits(s)
  {
    if s == [] then 0 else Num(s[..|s| - 1]) * 10 + Value(s[|s| - 1])
  }

  function Zeros(k: nat): (s: string)
    ensures |s| == k && Digits(s)
  {
    seq(k, _ => '0')
  }

  function PadStart(s: string, d: nat): string { if |s| < d then Zeros(d - |s|) + s else s }

  function PadEnd(s: string, d: nat): string { if |s| < d then s + Zeros(d - |s|) else s }

  function TrimRight(s: string): string { if s != [] && s[|s| - 1] == '0' then TrimRight(s[..|s| - 1]) else s }

  // Leading zeros dropped, the last digit kept.
  function TrimLeft(s: string): string { if |s| > 1 && s[0] == '0' then TrimLeft(s[1..]) else s }

  function Quot(v: nat, p: nat): nat
    requires p > 0
  {
    v / p
  }

  function Rem(v: nat, p: nat): nat
    requires p > 0
  {
    v % p
  }

  function FormatUnits(v: nat, d: nat): string {
    if d == 0 then Dec(v)
    else
      var whole, frac := Quot(v, Pow10(d)), Rem(v, Pow10(d));
      if frac == 0 then Dec(whole) else Dec(whole) + "." + TrimRight(PadStart(Dec(frac), d))
  }

  // The white space and line terminators String.prototype.trim drops.
  predicate IsSpace(c: char) {
    var n := c as int;
    n in {9, 10, 11, 12, 13, 32, 0xA0, 0x1680, 0x2028, 0x2029, 0x202F, 0x205F, 0x3000, 0xFEFF} || 0x2000 <= n <= 0x200A
  }

  // Tab, line feed, vertical tab, form feed, carriage return; the space separators of Unicode; the line and paragraph
  // separators and the byte order mark.
  lemma SpacesAre(c: char)
    ensures IsSpace(c) <==> c as int in [0x9, 0xA, 0xB, 0xC, 0xD, 0x20, 0xA0, 0x1680, 0x2000, 0x2001, 0x2002, 0x2003, 0x2004, 0x2005, 0x2006,
      0x2007, 0x2008, 0x2009, 0x200A, 0x2028, 0x2029, 0x202F, 0x205F, 0x3000, 0xFEFF]
  {
  }

  function Trim(s: string): string {
    if s != [] && IsSpace(s[0]) then Trim(s[1..])
    else if s != [] && IsSpace(s[|s| - 1]) then Trim(s[..|s| - 1])
    else s
  }

  // The first '.' of s, or its length.
  function Dot(s: string): (i: nat)
    ensures i <= |s| && (i < |s| ==> s[i] == '.') && '.' !in s[..i]
  {
    if s == [] || s[0] == '.' then 0 else 1 + Dot(s[1..])
  }

  // Digits, or digits, a point and digits: the two parts, the second empty when there is no point.
  function Parts(s: string): Option<(string, string)> {
    var i := Dot(s);
    if i == 0 || !Digits(s[..i]) then None
    else if i == |s| then Some((s, ""))
    else if i + 1 < |s| && Digits(s[i + 1..]) then Some((s[..i], s[i + 1..]))
    else None
  }

  function ParseUnits(human: string, d: nat): Option<nat> {
    var p := Parts(Trim(human));
    if p.None? || |p.value.1| > d then None
    else
      var v := Num(p.value.0) * Pow10(d) + PadNum(p.value.1, d);
      if v > MAX_AMOUNT then None else Some(v)
  }

  function PadNum(frac: string, d: nat): nat { if Digits(PadEnd(frac, d)) then Num(PadEnd(frac, d)) else 0 }

  // The same number with no redundant zero: none leading the whole part, none trailing the fraction.
  function Canonical(s: string): string {
    var p := Parts(s);
    if p.None? then s
    else
      var whole, frac := TrimLeft(p.value.0), TrimRight(p.value.1);
      if frac == "" then whole else whole + "." + frac
  }

  // ---- Arithmetic of digit strings ----

  lemma AtLeast(k: int, p: int)
    requires p >= 0
    ensures k >= 1 ==> k * p >= p
    ensures k <= -1 ==> k * p <= -p
  {
  }

  lemma DivBack(v: nat, p: nat)
    requires p > 0
    ensures v == Quot(v, p) * p + Rem(v, p) && Rem(v, p) < p
  {
  }

  lemma DivMod(a: nat, b: nat, p: nat)
    requires b < p
    ensures Quot(a * p + b, p) == a && Rem(a * p + b, p) == b
  {
    var q, m := Quot(a * p + b, p), Rem(a * p + b, p);
    DivBack(a * p + b, p);
    hide Quot, Rem;
    Distribute(q, a, p);
    AtLeast(q - a, p);
  }

  lemma Distribute(q: int, a: int, p: int)
    ensures (q - a) * p == q * p - a * p
  {
  }

  lemma Shift(x: nat, p: nat, y: nat)
    ensures (x * p + y) * 10 == x * (10 * p) + y * 10
  {
  }

  lemma {:induction false} NumOfDec(n: nat)
    ensures Num(Dec(n)) == n
  {
    if n < 10 {
      assert Dec(n)[..0] == [];
    } else {
      NumOfDec(n / 10);
      assert Dec(n)[..|Dec(n)| - 1] == Dec(n / 10);
    }
  }

  lemma {:induction false} NumConcat(a: string, b: string)
    requires Digits(a) && Digits(b)
    ensures Digits(a + b) && Num(a + b) == Num(a) * Pow10(|b|) + Num(b)
  {
    if b == [] {
      assert a + b == a;
    } else {
      var init := b[..|b| - 1];
      NumConcat(a, init);
      assert (a + b)[..|a + b| - 1] == a + init;
      Shift(Num(a), Pow10(|init|), Num(init));
    }
  }

  lemma {:induction false} NumBelow(s: string)
    requires Digits(s)
    ensures Num(s) < Pow10(|s|)
  {
    if s != [] { NumBelow(s[..|s| - 1]); }
  }

  lemma {:induction false} NumZeros(k: nat)
    ensures Num(Zeros(k)) == 0
  {
    if k > 0 {
      assert Zeros(k)[..k - 1] == Zeros(k - 1);
      NumZeros(k - 1);
    }
  }

  // Printing a number read from digits gives them back without leading zeros.
  lemma {:induction false} DecOfNum(s: string)
    requires Digits(s) && s != []
    ensures Dec(Num(s)) == TrimLeft(s)
  {
    if |s| == 1 {
      assert s[..0] == [];
    } else if s[0] == '0' {
      DecOfNum(s[1..]);
      ZeroLeads(s);
    } else {
      var init, c := s[..|s| - 1], s[|s| - 1];
      assert init[0] == s[0] && s == init + [c] && TrimLeft(init) == init;
      assert Num(s) == Num(init) * 10 + Value(c);
      hide Num, Dec;
      DecOfNum(init);
      LeadingDigit(init);
      DecSnoc(Num(init), c);
    }
  }

  lemma ZeroLeads(s: string)
    requires Digits(s) && |s| > 1 && s[0] == '0'
    ensures Num(s) == Num(s[1..])
  {
    assert s == Zeros(1) + s[1..];
    NumAfterZeros(1, s[1..]);
  }

  lemma DecSnoc(n: nat, c: char)
    requires IsDigit(c) && n >= 1
    ensures Dec(n * 10 + Value(c)) == Dec(n) + [c]
  {
    assert (n * 10 + Value(c)) / 10 == n && (n * 10 + Value(c)) % 10 == Value(c);
  }

  lemma {:induction false} LeadingDigit(s: string)
    requires Digits(s) && s != [] && s[0] != '0'
    ensures Num(s) >= 1
  {
    if |s| == 1 {
      assert s[..0] == [];
    } else {
      LeadingDigit(s[..|s| - 1]);
    }
  }

  // A number printed to the width it was read at is what was read.
  lemma PadRestores(s: string)
    requires Digits(s) && s != []
    ensures PadStart(Dec(Num(s)), |s|) == s
  {
    DecOfNum(s);
    TrimLeftPads(s);
  }

  lemma {:induction false} TrimLeftPads(s: string)
    requires s != []
    ensures |TrimLeft(s)| <= |s| && PadStart(TrimLeft(s), |s|) == s
  {
    if |s| > 1 && s[0] == '0' {
      TrimLeftPads(s[1..]);
      var t := TrimLeft(s[1..]);
      assert Zeros(|s| - |t|) == ['0'] + Zeros(|s| - 1 - |t|);
    }
  }

  lemma {:induction false} TrimRightPads(s: string)
    ensures |TrimRight(s)| <= |s| && PadEnd(TrimRight(s), |s|) == s
    ensures Digits(s) ==> Digits(TrimRight(s))
  {
    if s != [] && s[|s| - 1] == '0' {
      TrimRightPads(s[..|s| - 1]);
      var t := TrimRight(s[..|s| - 1]);
      assert Zeros(|s| - |t|) == Zeros(|s| - 1 - |t|) + ['0'];
    }
  }

  lemma {:induction false} TrimPadded(s: string, k: nat)
    ensures TrimRight(s + Zeros(k)) == TrimRight(s)
  {
    if k == 0 {
      assert s + Zeros(0) == s;
    } else {
      assert (s + Zeros(k))[..|s| + k - 1] == s + Zeros(k - 1);
      TrimPadded(s, k - 1);
    }
  }

  lemma {:induction false} AllZero(s: string)
    requires Digits(s)
    ensures Num(s) == 0 <==> TrimRight(s) == []
  {
    if s != [] { AllZero(s[..|s| - 1]); }
  }

  lemma {:induction false} DecIsShort(n: nat, d: nat)
    requires n < Pow10(d) && d > 0
    ensures |Dec(n)| <= d
    decreases d
  {
    assert Pow10(d) == 10 * Pow10(d - 1) && Pow10(0) == 1;
    if n >= 10 { DecIsShort(n / 10, d - 1); }
  }

  // ---- Reading the two shapes back ----

  lemma {:induction false} DotAfterDigits(a: string, b: string)
    requires Digits(a) && (b == [] || b[0] == '.')
    ensures Dot(a + b) == |a|
  {
    if a == [] {
      assert a + b == b;
    } else {
      assert IsDigit(a[0]) && (a + b)[1..] == a[1..] + b;
      DotAfterDigits(a[1..], b);
    }
  }

  lemma PartsOf(whole: string, frac: string)
    requires Digits(whole) && whole != [] && Digits(frac)
    ensures frac == [] ==> Parts(whole) == Some((whole, ""))
    ensures frac != [] ==> Parts(whole + "." + frac) == Some((whole, frac))
  {
    if frac == [] {
      DotAfterDigits(whole, []);
      assert whole + [] == whole && whole[..|whole|] == whole;
    } else {
      var s := whole + "." + frac;
      DotAfterDigits(whole, "." + frac);
      assert s == whole + ("." + frac) && s[..|whole|] == whole && s[|whole| + 1..] == frac;
    }
  }

  lemma TrimKeeps(s: string)
    requires s != [] && !IsSpace(s[0]) && !IsSpace(s[|s| - 1])
    ensures Trim(s) == s
  {
  }

  // The fraction digits printed: none, or ones that do not end in zero.
  function FracDigits(v: nat, d: nat): string {
    if d == 0 then "" else TrimRight(PadStart(Dec(Rem(v, Pow10(d))), d))
  }

  lemma NumAfterZeros(k: nat, s: string)
    requires Digits(s)
    ensures Digits(Zeros(k) + s) && Num(Zeros(k) + s) == Num(s)
  {
    NumZeros(k);
    hide Num, Pow10;
    NumConcat(Zeros(k), s);
    assert 0 * Pow10(|s|) == 0;
  }

  lemma PaddedNum(n: nat, d: nat)
    requires n < Pow10(d) && d > 0
    ensures var s := PadStart(Dec(n), d); Digits(s) && |s| == d && Num(s) == n
  {
    DecIsShort(n, d);
    NumOfDec(n);
    hide Num, Dec, Pow10;
    NumAfterZeros(d - |Dec(n)|, Dec(n));
  }

  // What formatting prints: a whole part, and the fraction's digits when it is not zero.
  lemma FormatShape(v: nat, d: nat)
    ensures var f := FracDigits(v, d);
      && Digits(f) && |f| <= d && PadNum(f, d) == Rem(v, Pow10(d))
      && FormatUnits(v, d) == if f == "" then Dec(Quot(v, Pow10(d))) else Dec(Quot(v, Pow10(d))) + "." + f
  {
    if d > 0 {
      DivBack(v, Pow10(d));
      hide Quot, Rem, Pow10, Num, Dec;
      PaddedNum(Rem(v, Pow10(d)), d);
      TrimRightPads(PadStart(Dec(Rem(v, Pow10(d))), d));
      AllZero(PadStart(Dec(Rem(v, Pow10(d))), d));
    } else {
      assert PadEnd("", 0) == "" && Pow10(0) == 1 && Num("") == 0;
    }
  }

  // Typing back what was printed gives the amount.
  // Digits are read most significant first.
  lemma NumReads(s: string, c: char)
    requires Digits(s) && IsDigit(c)
    ensures Num("") == 0 && Digits(s + [c]) && Num(s + [c]) == 10 * Num(s) + (c as int - 48)
  {
    assert (s + [c])[..|s|] == s;
  }

  // What a figure is worth: its whole part in units of ten to the decimals, and its fraction to its own place.
  lemma ParseReads(whole: string, frac: string, d: nat)
    requires whole != "" && Digits(whole) && Digits(frac) && |frac| <= d
    ensures var v := Num(whole) * Pow10(d) + Num(frac) * Pow10(d - |frac|);
      ParseUnits(if frac == "" then whole else whole + "." + frac, d) == if v < 0x1_0000_0000_0000_0000_0000_0000 then Some(v) else None
  {
    hide Num, Pow10, Parts, Trim, IsSpace, Digits, PadNum;
    PartsOf(whole, frac);
    Untrimmed(whole, frac);
    PadNumIs(frac, d);
  }

  lemma Untrimmed(whole: string, frac: string)
    requires whole != "" && Digits(whole) && Digits(frac)
    ensures var s := if frac == "" then whole else whole + "." + frac; Trim(s) == s
  {
    var s := if frac == "" then whole else whole + "." + frac;
    DigitsAreNotSpace(whole[0]);
    DigitsAreNotSpace(s[|s| - 1]);
    TrimKeeps(s);
  }

  lemma PadNumIs(frac: string, d: nat)
    requires Digits(frac) && |frac| <= d
    ensures PadNum(frac, d) == Num(frac) * Pow10(d - |frac|)
  {
    hide Num, Pow10;
    assert PadEnd(frac, d) == frac + Zeros(d - |frac|) by { assert frac + Zeros(0) == frac; }
    NumZeros(d - |frac|);
    NumConcat(frac, Zeros(d - |frac|));
  }

  lemma ParseFormat(v: nat, d: nat)
    requires v <= 0xFFFF_FFFF_FFFF_FFFF_FFFF_FFFF && d <= 8
    ensures ParseUnits(FormatUnits(v, d), d) == Some(v)
  {
    FormatShape(v, d);
    DivBack(v, Pow10(d));
    var whole, f, s := Dec(Quot(v, Pow10(d))), FracDigits(v, d), FormatUnits(v, d);
    NumOfDec(Quot(v, Pow10(d)));
    hide Quot, Rem, Pow10, Num, Dec, FracDigits, FormatUnits, PadNum, Parts, Trim, IsSpace;
    PartsOf(whole, f);
    assert s != [] && IsDigit(s[0]) && IsDigit(s[|s| - 1]);
    DigitsAreNotSpace(s[0]);
    DigitsAreNotSpace(s[|s| - 1]);
    TrimKeeps(s);
  }

  lemma DigitsAreNotSpace(c: char)
    requires IsDigit(c)
    ensures !IsSpace(c)
  {
  }

  // Printing what was typed gives it back without redundant zeros.
  lemma FormatParse(human: string, d: nat)
    requires d <= 8 && ParseUnits(human, d).Some?
    ensures FormatUnits(ParseUnits(human, d).value, d) == Canonical(Trim(human))
  {
    hide Num, Pow10, PadNum, FormatUnits, TrimLeft, TrimRight, Parts, Digits, Trim;
    PartsAreDigits(Trim(human));
    FormatOfParts(Parts(Trim(human)).value.0, Parts(Trim(human)).value.1, d);
  }

  lemma PaddedFrac(frac: string, d: nat)
    requires Digits(frac) && |frac| <= d
    ensures var p := PadEnd(frac, d);
      Digits(p) && |p| == d && PadNum(frac, d) == Num(p) < Pow10(d) && TrimRight(p) == TrimRight(frac)
      && (Num(p) == 0 <==> TrimRight(frac) == "")
  {
    hide Num, Pow10, TrimRight;
    assert PadEnd(frac, d) == frac + Zeros(d - |frac|) by { assert frac + Zeros(0) == frac; }
    NumBelow(PadEnd(frac, d));
    TrimPadded(frac, d - |frac|);
    AllZero(PadEnd(frac, d));
  }

  lemma {:induction false} FormatOfParts(whole: string, frac: string, d: nat)
    requires Digits(whole) && whole != [] && Digits(frac) && |frac| <= d
    ensures var w, f := TrimLeft(whole), TrimRight(frac);
      FormatUnits(Num(whole) * Pow10(d) + PadNum(frac, d), d) == if f == "" then w else w + "." + f
  {
    hide Num, Dec, Pow10, PadNum, TrimLeft, TrimRight, FormatUnits;
    if d == 0 {
      FormatWhole(whole);
    } else {
      DecOfNum(whole);
      FormatWithFrac(Num(whole), frac, d);
    }
  }

  lemma {:induction false} FormatWhole(whole: string)
    requires Digits(whole) && whole != []
    ensures FormatUnits(Num(whole) * Pow10(0) + PadNum("", 0), 0) == TrimLeft(whole) && TrimRight("") == ""
  {
    DecOfNum(whole);
    assert Pow10(0) == 1 && PadEnd("", 0) == "" && PadNum("", 0) == 0;
    hide Num, Dec, Pow10, PadNum, TrimLeft;
  }

  lemma {:induction false} FormatWithFrac(n: nat, frac: string, d: nat)
    requires Digits(frac) && |frac| <= d && d > 0
    ensures FormatUnits(n * Pow10(d) + PadNum(frac, d), d)
         == if TrimRight(frac) == "" then Dec(n) else Dec(n) + "." + TrimRight(frac)
  {
    var padded := PadEnd(frac, d);
    PaddedFrac(frac, d);
    hide Quot, Rem, Pow10, Num, Dec, TrimRight, Zeros, PadStart, PadEnd, PadNum, Digits, FormatUnits;
    DivMod(n, Num(padded), Pow10(d));
    PadRestores(padded);
    FormatIs(n * Pow10(d) + Num(padded), d, n, Num(padded));
  }

  lemma FormatIs(v: nat, d: nat, q: nat, r: nat)
    requires d > 0 && Quot(v, Pow10(d)) == q && Rem(v, Pow10(d)) == r
    ensures FormatUnits(v, d) == if r == 0 then Dec(q) else Dec(q) + "." + TrimRight(PadStart(Dec(r), d))
  {
    hide Quot, Rem, Pow10, Dec;
  }

  lemma PartsAreDigits(s: string)
    requires Parts(s).Some?
    ensures Digits(Parts(s).value.0) && Parts(s).value.0 != [] && Digits(Parts(s).value.1)
  {
    assert s[..|s|] == s;
  }
}
