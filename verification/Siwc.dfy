// The sign-in message a site asks the wallet to sign: its text, which fields it refuses, and that the signed bytes
// fix the fields.

module Utf {
  import opened Base

  // UTF-16 code units, as strings are made of here, and bytes.
  type CodeUnit = n: int | 0 <= n < 0x10000
  type Octet = n: int | 0 <= n < 256
  type Text = seq<CodeUnit>

  predicate IsHigh(u: CodeUnit) { 0xD800 <= u <= 0xDBFF }

  predicate IsLow(u: CodeUnit) { 0xDC00 <= u <= 0xDFFF }

  predicate IsSurrogate(u: CodeUnit) { 0xD800 <= u <= 0xDFFF }

  // The surrogates by their bits, as section 2.2 of RFC 2781 has them: 110110 begins a high one, 110111 a low one.
  lemma SurrogateBits(u: CodeUnit)
    ensures IsHigh(u) <==> u / 0x400 == 0x36
    ensures IsLow(u) <==> u / 0x400 == 0x37
    ensures IsSurrogate(u) <==> u / 0x800 == 0x1B
  {
  }

  // Section 2.2 of RFC 2781: surrogates only in high-low pairs.
  predicate WellFormed(s: Text) {
    if s == [] then true
    else if !IsSurrogate(s[0]) then WellFormed(s[1..])
    else IsHigh(s[0]) && |s| > 1 && IsLow(s[1]) && WellFormed(s[2..])
  }

  predicate HasSurrogate(s: Text) { exists i :: 0 <= i < |s| && IsSurrogate(s[i]) }

  // Every high-low pair deleted, scanning from the left.
  function WithoutPairs(s: Text): Text {
    if s == [] then []
    else if IsHigh(s[0]) && |s| > 1 && IsLow(s[1]) then WithoutPairs(s[2..])
    else [s[0]] + WithoutPairs(s[1..])
  }

  predicate HasLoneSurrogate(s: Text) { HasSurrogate(s) && HasSurrogate(WithoutPairs(s)) }

  lemma {:induction false} PairsOnlyRemoved(s: Text)
    ensures HasSurrogate(WithoutPairs(s)) <==> !WellFormed(s)
    ensures !HasSurrogate(s) ==> WellFormed(s)
  {
    if s != [] {
      if IsHigh(s[0]) && |s| > 1 && IsLow(s[1]) {
        PairsOnlyRemoved(s[2..]);
        assert IsSurrogate(s[0]);
      } else {
        PairsOnlyRemoved(s[1..]);
        var w := WithoutPairs(s);
        assert w[0] == s[0] && w[1..] == WithoutPairs(s[1..]);
        if HasSurrogate(w[1..]) { var i :| 0 <= i < |w[1..]| && IsSurrogate(w[1..][i]); assert w[i + 1] == w[1..][i]; }
        if HasSurrogate(w) && !IsSurrogate(w[0]) { var i :| 0 <= i < |w| && IsSurrogate(w[i]); assert w[1..][i - 1] == w[i]; }
        if HasSurrogate(s[1..]) { var i :| 0 <= i < |s[1..]| && IsSurrogate(s[1..][i]); assert s[i + 1] == s[1..][i]; }
      }
    }
  }

  // The check refuses exactly the strings that are not well-formed UTF-16.
  lemma LoneSurrogateIsIllFormed(s: Text)
    ensures HasLoneSurrogate(s) <==> !WellFormed(s)
  {
    PairsOnlyRemoved(s);
  }

  lemma {:induction false} WellFormedConcat(a: Text, b: Text)
    requires WellFormed(a) && WellFormed(b)
    ensures WellFormed(a + b)
  {
    if a == [] {
      assert a + b == b;
    } else if !IsSurrogate(a[0]) {
      assert (a + b)[1..] == a[1..] + b;
      WellFormedConcat(a[1..], b);
    } else {
      assert (a + b)[2..] == a[2..] + b;
      WellFormedConcat(a[2..], b);
    }
  }

  // ---- Encoding ----

  type Scalar = n: int | 0 <= n < 0x110000

  // Section 3 of RFC 3629.
  function Utf8(c: Scalar): seq<Octet> {
    if c < 0x80 then [c]
    else if c < 0x800 then [0xC0 + c / 0x40, 0x80 + c % 0x40]
    else if c < 0x10000 then [0xE0 + c / 0x1000, 0x80 + c / 0x40 % 0x40, 0x80 + c % 0x40]
    else [0xF0 + c / 0x40000, 0x80 + c / 0x1000 % 0x40, 0x80 + c / 0x40 % 0x40, 0x80 + c % 0x40]
  }

  // How many bytes a first byte announces, and the scalar they hold.
  function Width(b: Octet): nat { if b < 0xC0 then 1 else if b < 0xE0 then 2 else if b < 0xF0 then 3 else 4 }

  function Held(b: seq<Octet>): int
    requires b != [] && |b| >= Width(b[0])
  {
    match Width(b[0])
    case 1 => b[0]
    case 2 => (b[0] as int - 0xC0) * 0x40 + (b[1] as int - 0x80)
    case 3 => (b[0] as int - 0xE0) * 0x1000 + (b[1] as int - 0x80) * 0x40 + (b[2] as int - 0x80)
    case _ => (b[0] as int - 0xF0) * 0x40000 + (b[1] as int - 0x80) * 0x1000 + (b[2] as int - 0x80) * 0x40 + (b[3] as int - 0x80)
  }

  lemma Digits64(c: Scalar)
    ensures c == c / 0x40 * 0x40 + c % 0x40
    ensures c == c / 0x1000 * 0x1000 + c / 0x40 % 0x40 * 0x40 + c % 0x40
    ensures c == c / 0x40000 * 0x40000 + c / 0x1000 % 0x40 * 0x1000 + c / 0x40 % 0x40 * 0x40 + c % 0x40
  {
  }

  lemma HeldOne(c: Scalar)
    ensures Width(Utf8(c)[0]) == |Utf8(c)| && Held(Utf8(c)) == c
  {
    Digits64(c);
  }

  lemma HeldPrefix(b: seq<Octet>, rest: seq<Octet>)
    requires b != [] && |b| == Width(b[0])
    ensures Held(b + rest) == Held(b) && (b + rest)[|b|..] == rest
  {
  }

  lemma HeldBack(c: Scalar, rest: seq<Octet>)
    ensures var b := Utf8(c) + rest; Width(b[0]) == |Utf8(c)| && Held(b) == c && b[|Utf8(c)|..] == rest
  {
    HeldOne(c);
    HeldPrefix(Utf8(c), rest);
  }

  // The scalars of a well-formed string, a pair as one.
  function Scalars(s: Text): seq<Scalar>
    requires WellFormed(s)
  {
    if s == [] then []
    else if !IsSurrogate(s[0]) then [s[0]] + Scalars(s[1..])
    else [0x10000 + (s[0] - 0xD800) * 0x400 + (s[1] - 0xDC00)] + Scalars(s[2..])
  }

  function Bytes(cs: seq<Scalar>): seq<Octet> { if cs == [] then [] else Utf8(cs[0]) + Bytes(cs[1..]) }

  lemma {:induction false} BytesInjective(a: seq<Scalar>, b: seq<Scalar>)
    requires Bytes(a) == Bytes(b)
    ensures a == b
  {
    if a != [] && b != [] {
      HeldBack(a[0], Bytes(a[1..]));
      HeldBack(b[0], Bytes(b[1..]));
      hide Utf8, Width, Held;
      BytesInjective(a[1..], b[1..]);
      assert a == [a[0]] + a[1..] && b == [b[0]] + b[1..];
    }
  }

  lemma {:induction false} ScalarsInjective(a: Text, b: Text)
    requires WellFormed(a) && WellFormed(b) && Scalars(a) == Scalars(b)
    ensures a == b
  {
    if a != [] && b != [] {
      var x, y := if IsSurrogate(a[0]) then 2 else 1, if IsSurrogate(b[0]) then 2 else 1;
      assert Scalars(a)[0] == Scalars(b)[0] && Scalars(a)[1..] == Scalars(b)[1..];
      assert x == y && a[..x] == b[..y];
      ScalarsInjective(a[x..], b[y..]);
      assert a == a[..x] + a[x..] && b == b[..y] + b[y..];
    }
  }

  // Well-formed strings with the same UTF-8 are the same string.
  lemma Utf8Injective(a: Text, b: Text)
    requires WellFormed(a) && WellFormed(b) && Bytes(Scalars(a)) == Bytes(Scalars(b))
    ensures a == b
  {
    BytesInjective(Scalars(a), Scalars(b));
    ScalarsInjective(a, b);
  }

  // A literal of printable characters.
  function Ascii(s: string): (t: Text)
    ensures |t| == |s| && forall i :: 0 <= i < |t| ==> 32 <= t[i] < 127
    ensures forall i :: 0 <= i < |s| && 32 <= s[i] as int < 127 ==> t[i] == s[i] as int
  {
    seq(|s|, i requires 0 <= i < |s| => if 32 <= s[i] as int < 127 then s[i] as int else 63)
  }

  lemma {:induction false} AsciiWellFormed(s: Text)
    requires forall i :: 0 <= i < |s| ==> !IsSurrogate(s[i])
    ensures WellFormed(s)
  {
    if s != [] { AsciiWellFormed(s[1..]); }
  }
}

module Siwc {
  import opened Base
  import opened Utf

  const LF: CodeUnit := 10

  // The line terminators a field may not carry.
  predicate IsLineEnd(u: CodeUnit) { u in {10, 13, 0x2028, 0x2029, 0x85, 11, 12} }

  predicate HasLF(s: Text) { exists i :: 0 <= i < |s| && IsLineEnd(s[i]) }

  predicate BadField(s: Text) { HasLF(s) || HasLoneSurrogate(s) }

  datatype Fields = Fields(domain: Text, account: Text, statement: Option<Text>, uri: Text, version: Text, chainId: Text,
                           nonce: Text, issuedAt: Text, expirationTime: Option<Text>, notBefore: Option<Text>,
                           requestId: Option<Text>, resources: Option<seq<Text>>)

  const HEADER_SUFFIX: Text := Ascii(" wants you to sign in with your Compute Substrate account:")
  const URI: Text := Ascii("URI: ")
  const VERSION: Text := Ascii("Version: ")
  const CHAIN_ID: Text := Ascii("Chain ID: ")
  const NONCE: Text := Ascii("Nonce: ")
  const ISSUED_AT: Text := Ascii("Issued At: ")
  const EXPIRATION: Text := Ascii("Expiration Time: ")
  const NOT_BEFORE: Text := Ascii("Not Before: ")
  const REQUEST_ID: Text := Ascii("Request ID: ")
  const RESOURCES: Text := Ascii("Resources:")
  const DASH: Text := Ascii("- ")
  const SIWC_VERSION: Text := Ascii("1")

  predicate IsHex(u: CodeUnit) { 48 <= u <= 57 || 97 <= u <= 102 || 65 <= u <= 70 }

  predicate IsAlnum(u: CodeUnit) { 48 <= u <= 57 || 97 <= u <= 122 || 65 <= u <= 90 }

  predicate IsAccount(s: Text) { |s| == 42 && s[0] == 48 && s[1] == 120 && forall i :: 2 <= i < 42 ==> IsHex(s[i]) }

  predicate IsNonce(s: Text) { |s| >= 8 && forall i :: 0 <= i < |s| ==> IsAlnum(s[i]) }

  predicate GoodOption(o: Option<Text>) { o.Some? ==> !BadField(o.value) }

  // An absent statement and an empty one are the same message.
  function Normal(f: Fields): Fields { if f.statement == Some([]) then f.(statement := None) else f }

  predicate Accepted(f: Fields) {
    && f.domain != [] && !BadField(f.domain) && IsAccount(f.account)
    && f.uri != [] && !BadField(f.uri) && f.version == SIWC_VERSION
    && f.chainId != [] && !BadField(f.chainId) && IsNonce(f.nonce)
    && f.issuedAt != [] && !BadField(f.issuedAt)
    && GoodOption(Normal(f).statement) && GoodOption(f.expirationTime) && GoodOption(f.notBefore) && GoodOption(f.requestId)
    && (f.resources.Some? ==> forall i :: 0 <= i < |f.resources.value| ==> !BadField(f.resources.value[i]))
  }

  // What each field may hold: no line terminator and no surrogate alone; the account 0x and forty hex digits, the nonce at
  // least eight letters and digits, the version 1.
  lemma AcceptedMeans(f: Fields, i: nat)
    requires Accepted(f)
    ensures |f.account| == 42 && f.account[..2] == Ascii("0x") && (2 <= i < 42 ==> exists c :: c in "0123456789abcdefABCDEF" && c as int == f.account[i])
    ensures 8 <= |f.nonce|
    ensures i < |f.nonce| ==> f.nonce[i] < 128 && LetterOrDigit(f.nonce[i] as char)
    ensures f.version == Ascii("1") && f.domain != [] && f.uri != [] && f.chainId != [] && f.issuedAt != []
    ensures WellFormed(f.domain) && WellFormed(f.uri) && WellFormed(f.chainId) && WellFormed(f.issuedAt)
    ensures f.statement.Some? && f.statement.value != [] ==> WellFormed(f.statement.value)
    ensures forall u :: (u in f.domain || u in f.uri || u in f.chainId || u in f.issuedAt || (f.statement.Some? && u in f.statement.value)) ==>
              u != 10 && u != 13 && u != 11 && u != 12 && u != 0x85 && u != 0x2028 && u != 0x2029
  {
    LoneSurrogateIsIllFormed(f.domain);
    LoneSurrogateIsIllFormed(f.uri);
    LoneSurrogateIsIllFormed(f.chainId);
    LoneSurrogateIsIllFormed(f.issuedAt);
    if f.statement.Some? { LoneSurrogateIsIllFormed(f.statement.value); }
    assert f.account[..2] == Ascii("0x");
    if 2 <= i < 42 { HexIs(f.account[i]); }
    if i < |f.nonce| { AlnumIs(f.nonce[i]); }
    hide HasLoneSurrogate, WellFormed, IsAccount, IsNonce;
    NoLF(f.domain);
    NoLF(f.uri);
    NoLF(f.chainId);
    NoLF(f.issuedAt);
    if f.statement.Some? { NoLF(f.statement.value); }
  }

  lemma NoLF(s: Text)
    ensures s == [] || !BadField(s) ==> forall u :: u in s ==> !IsLineEnd(u)
  {
  }

  lemma HexIs(u: CodeUnit)
    ensures IsHex(u) <==> exists c :: c in "0123456789abcdefABCDEF" && c as int == u
  {
    var digits := "0123456789abcdefABCDEF";
    if 48 <= u <= 57 { assert digits[u - 48] as int == u && digits[u - 48] in digits; }
    if 97 <= u <= 102 { assert digits[u - 87] as int == u && digits[u - 87] in digits; }
    if 65 <= u <= 70 { assert digits[u - 49] as int == u && digits[u - 49] in digits; }
  }

  predicate LetterOrDigit(c: char) { '0' <= c <= '9' || 'a' <= c <= 'z' || 'A' <= c <= 'Z' }

  lemma AlnumIs(u: CodeUnit)
    ensures IsAlnum(u) <==> u < 128 && LetterOrDigit(u as char)
  {
  }

  // And every nonce of that shape is one, and every account.
  lemma NonceIs(s: Text)
    ensures IsNonce(s) <==> |s| >= 8 && forall u :: u in s ==> IsAlnum(u)
    ensures IsAccount(s) <==> |s| == 42 && s[..2] == Ascii("0x") && forall u :: u in s[2..] ==> IsHex(u)
  {
    if IsNonce(s) { forall u | u in s ensures IsAlnum(u) { var i :| 0 <= i < |s| && s[i] == u; } }
    if |s| == 42 {
      assert s[..2] == [s[0], s[1]];
      if IsAccount(s) { forall u | u in s[2..] ensures IsHex(u) { var i :| 0 <= i < 40 && s[2..][i] == u; assert s[i + 2] == u; } }
      if forall u :: u in s[2..] ==> IsHex(u) { forall i | 2 <= i < 42 ensures IsHex(s[i]) { assert s[2..][i - 2] == s[i]; } }
    }
  }

  // ---- The lines ----

  function OptLine(tag: Text, o: Option<Text>): seq<Text> { if o.Some? then [tag + o.value] else [] }

  function Bullets(rs: seq<Text>): seq<Text> { if rs == [] then [] else [DASH + rs[0]] + Bullets(rs[1..]) }

  function Tail(f: Fields): seq<Text> {
    OptLine(EXPIRATION, f.expirationTime) + (OptLine(NOT_BEFORE, f.notBefore) + (OptLine(REQUEST_ID, f.requestId)
      + if f.resources.Some? then [RESOURCES] + Bullets(f.resources.value) else []))
  }

  function Fixed(f: Fields): seq<Text> {
    [[], URI + f.uri, VERSION + f.version, CHAIN_ID + f.chainId, NONCE + f.nonce, ISSUED_AT + f.issuedAt]
  }

  function Lines(f: Fields): seq<Text> {
    [f.domain + HEADER_SUFFIX, f.account, []] + ((if Normal(f).statement.Some? then [f.statement.value] else []) + (Fixed(f) + Tail(f)))
  }

  function Join(lines: seq<Text>): Text {
    if lines == [] then [] else if |lines| == 1 then lines[0] else lines[0] + [LF] + Join(lines[1..])
  }

  lemma {:induction false} BulletsSnoc(rs: seq<Text>, r: Text)
    ensures Bullets(rs + [r]) == Bullets(rs) + [DASH + r]
  {
    if rs == [] {
      assert rs + [r] == [r];
    } else {
      assert (rs + [r])[1..] == rs[1..] + [r];
      BulletsSnoc(rs[1..], r);
    }
  }

  method CheckFields(f: Fields) returns (error: Option<string>)
    ensures error.None? <==> Accepted(f)
    ensures error == Some("siwc: bad domain") <==> f.domain == [] || BadField(f.domain)
    ensures error == Some("siwc: bad account") ==> !IsAccount(f.account)
    ensures error == Some("siwc: bad uri") ==> f.uri == [] || BadField(f.uri)
    ensures error == Some("siwc: bad version") ==> f.version != SIWC_VERSION
    ensures error == Some("siwc: bad chainId") ==> f.chainId == [] || BadField(f.chainId)
    ensures error == Some("siwc: nonce must be >=8 alphanumeric") ==> !IsNonce(f.nonce)
    ensures error == Some("siwc: bad issuedAt") ==> f.issuedAt == [] || BadField(f.issuedAt)
  {
    hide BadField, IsAccount, IsNonce;
    if f.domain == [] || BadField(f.domain) { return Some("siwc: bad domain"); }
    if !IsAccount(f.account) { return Some("siwc: bad account"); }
    if f.uri == [] || BadField(f.uri) { return Some("siwc: bad uri"); }
    if f.version != SIWC_VERSION { return Some("siwc: bad version"); }
    if f.chainId == [] || BadField(f.chainId) { return Some("siwc: bad chainId"); }
    if !IsNonce(f.nonce) { return Some("siwc: nonce must be >=8 alphanumeric"); }
    if f.issuedAt == [] || BadField(f.issuedAt) { return Some("siwc: bad issuedAt"); }
    if !GoodOption(Normal(f).statement) { return Some("siwc: statement must be one line"); }
    if !GoodOption(f.expirationTime) || !GoodOption(f.notBefore) || !GoodOption(f.requestId) { return Some("siwc: newline in field"); }
    if f.resources.Some? {
      for i := 0 to |f.resources.value|
        invariant forall j :: 0 <= j < i ==> !BadField(f.resources.value[j])
      {
        if BadField(f.resources.value[i]) { return Some("siwc: newline in resource"); }
      }
    }
    error := None;
  }

  method BuildLines(f: Fields) returns (lines: seq<Text>)
    ensures lines == Lines(f)
  {
    hide Tail, Ascii, OptLine, Bullets;
    lines := [f.domain + HEADER_SUFFIX, f.account, []];
    if Normal(f).statement.Some? { lines := lines + [f.statement.value]; }
    lines := lines + [[]];
    lines := lines + [URI + f.uri];
    lines := lines + [VERSION + f.version];
    lines := lines + [CHAIN_ID + f.chainId];
    lines := lines + [NONCE + f.nonce];
    lines := lines + [ISSUED_AT + f.issuedAt];
    ghost var head := [f.domain + HEADER_SUFFIX, f.account, []] + ((if Normal(f).statement.Some? then [f.statement.value] else []) + Fixed(f));
    assert lines == head;
    assert Lines(f) == head + Tail(f);
    hide Fixed, Lines;
    var tail := BuildTail(f);
    lines := lines + tail;
  }

  method BuildTail(f: Fields) returns (lines: seq<Text>)
    ensures lines == Tail(f)
  {
    lines := OptLine(EXPIRATION, f.expirationTime);
    lines := lines + OptLine(NOT_BEFORE, f.notBefore);
    lines := lines + OptLine(REQUEST_ID, f.requestId);
    if f.resources.Some? {
      var rs := f.resources.value;
      var list := [RESOURCES];
      for i := 0 to |rs|
        invariant list == [RESOURCES] + Bullets(rs[..i])
      {
        BulletsSnoc(rs[..i], rs[i]);
        assert rs[..i + 1] == rs[..i] + [rs[i]];
        list := list + [DASH + rs[i]];
      }
      assert rs[..|rs|] == rs;
      lines := lines + list;
    }
  }

  method BuildSiwcMessage(f: Fields) returns (r: Result<Text, string>)
    ensures r.Ok? <==> Accepted(f)
    ensures r.Ok? ==> r.value == Join(Lines(f))
  {
    var error := CheckFields(f);
    if error.Some? { return Err(error.value); }
    var lines := BuildLines(f);
    r := Ok(Join(lines));
  }

  // ---- Reading a message back ----

  function Split(s: Text): (lines: seq<Text>)
    ensures lines != []
  {
    if s == [] then [[]]
    else
      var rest := Split(s[1..]);
      if s[0] == LF then [[]] + rest else [[s[0]] + rest[0]] + rest[1..]
  }

  predicate StartsWith(l: Text, tag: Text) { |tag| <= |l| && l[..|tag|] == tag }

  function TakeOpt(lines: seq<Text>, tag: Text): (Option<Text>, seq<Text>) {
    if lines != [] && StartsWith(lines[0], tag) then (Some(lines[0][|tag|..]), lines[1..]) else (None, lines)
  }

  function DropTag(lines: seq<Text>, i: nat, tag: Text): Text {
    if i < |lines| && |tag| <= |lines[i]| then lines[i][|tag|..] else []
  }

  function Unbullet(lines: seq<Text>): seq<Text> {
    if lines == [] then [] else [DropTag(lines, 0, DASH)] + Unbullet(lines[1..])
  }

  datatype Optional = Optional(expirationTime: Option<Text>, notBefore: Option<Text>, requestId: Option<Text>, resources: Option<seq<Text>>)

  function DecodeTail(t: seq<Text>): Optional {
    var (expiration, t1) := TakeOpt(t, EXPIRATION);
    var (notBefore, t2) := TakeOpt(t1, NOT_BEFORE);
    var (requestId, t3) := TakeOpt(t2, REQUEST_ID);
    Optional(expiration, notBefore, requestId, if t3 != [] && t3[0] == RESOURCES then Some(Unbullet(t3[1..])) else None)
  }

  function DecodeLines(ls: seq<Text>): Option<Fields> {
    if |ls| < 9 || |ls[0]| < |HEADER_SUFFIX| then None
    else
      var statement := if ls[3] == [] then None else Some(ls[3]);
      var rest := if ls[3] == [] then ls[3..] else ls[4..];
      if |rest| < 6 then None
      else
        var t := DecodeTail(rest[6..]);
        Some(Fields(ls[0][..|ls[0]| - |HEADER_SUFFIX|], ls[1], statement, DropTag(rest, 1, URI), DropTag(rest, 2, VERSION),
                    DropTag(rest, 3, CHAIN_ID), DropTag(rest, 4, NONCE), DropTag(rest, 5, ISSUED_AT),
                    t.expirationTime, t.notBefore, t.requestId, t.resources))
  }

  function DecodeMessage(s: Text): Option<Fields> { DecodeLines(Split(s)) }

  lemma {:induction false} SplitLine(l: Text)
    requires LF !in l
    ensures Split(l) == [l]
  {
    if l != [] {
      SplitLine(l[1..]);
      assert l[0] in l && l == [l[0]] + l[1..];
    }
  }

  lemma {:induction false} SplitAt(l: Text, rest: Text)
    requires LF !in l
    ensures Split(l + [LF] + rest) == [l] + Split(rest)
  {
    var s := l + [LF] + rest;
    if l == [] {
      assert s[1..] == rest;
    } else {
      assert s[1..] == l[1..] + [LF] + rest;
      SplitAt(l[1..], rest);
      assert l[0] in l && l == [l[0]] + l[1..];
    }
  }

  lemma {:induction false} SplitJoin(lines: seq<Text>)
    requires lines != [] && forall i :: 0 <= i < |lines| ==> LF !in lines[i]
    ensures Split(Join(lines)) == lines
  {
    if |lines| == 1 {
      SplitLine(lines[0]);
    } else {
      SplitJoin(lines[1..]);
      SplitAt(lines[0], Join(lines[1..]));
    }
  }

  lemma TakeOptBack(tag: Text, o: Option<Text>, rest: seq<Text>)
    requires rest == [] || !StartsWith(rest[0], tag)
    ensures TakeOpt(OptLine(tag, o) + rest, tag) == (o, rest)
  {
    if o.Some? {
      var l := tag + o.value;
      assert l[..|tag|] == tag && l[|tag|..] == o.value;
      assert ([l] + rest)[1..] == rest;
    } else {
      assert OptLine(tag, o) + rest == rest;
    }
  }

  lemma {:induction false} UnbulletBack(rs: seq<Text>)
    ensures Unbullet(Bullets(rs)) == rs
  {
    if rs != [] {
      UnbulletBack(rs[1..]);
      assert (DASH + rs[0])[|DASH|..] == rs[0];
      assert Bullets(rs)[1..] == Bullets(rs[1..]);
    }
  }

  // The four optional parts begin with different letters, or differ in the third.
  lemma TagsDiffer()
    ensures EXPIRATION[0] == 69 && NOT_BEFORE[0] == 78 && REQUEST_ID[0] == 82 && RESOURCES[0] == 82
    ensures REQUEST_ID[2] == 113 && RESOURCES[2] == 115
  {
    var e, n, q, r := "Expiration Time: ", "Not Before: ", "Request ID: ", "Resources:";
    assert e[0] == 'E' && n[0] == 'N' && q[0] == 'R' && r[0] == 'R' && q[2] == 'q' && r[2] == 's';
  }

  function TailResources(f: Fields): seq<Text> { if f.resources.Some? then [RESOURCES] + Bullets(f.resources.value) else [] }

  lemma DecodeTailBack(f: Fields)
    ensures DecodeTail(Tail(f)) == Optional(f.expirationTime, f.notBefore, f.requestId, f.resources)
  {
    TagsDiffer();
    var t3 := TailResources(f);
    var t2 := OptLine(REQUEST_ID, f.requestId) + t3;
    var t1 := OptLine(NOT_BEFORE, f.notBefore) + t2;
    TakeOptBack(REQUEST_ID, f.requestId, t3);
    assert t2 != [] ==> t2[0][0] == 82;
    TakeOptBack(NOT_BEFORE, f.notBefore, t2);
    assert t1 != [] ==> t1[0][0] == 78 || t1[0][0] == 82;
    TakeOptBack(EXPIRATION, f.expirationTime, t1);
    if f.resources.Some? {
      UnbulletBack(f.resources.value);
      assert t3[1..] == Bullets(f.resources.value);
    }
  }

  lemma DropTagBack(lines: seq<Text>, i: nat, tag: Text, v: Text)
    requires i < |lines| && lines[i] == tag + v
    ensures DropTag(lines, i, tag) == v
  {
  }

  lemma DecodeLinesBack(f: Fields)
    requires f.statement != Some([])
    ensures DecodeLines(Lines(f)) == Some(f)
  {
    var ls := Lines(f);
    var rest := Fixed(f) + Tail(f);
    assert Normal(f) == f;
    assert ls[0] == f.domain + HEADER_SUFFIX && ls[1] == f.account;
    if f.statement.Some? {
      assert ls[3] == f.statement.value && ls[4..] == rest;
    } else {
      assert ls[3] == [] && ls[3..] == rest;
    }
    assert rest[6..] == Tail(f);
    DecodeTailBack(f);
    DropTagBack(rest, 1, URI, f.uri);
    DropTagBack(rest, 2, VERSION, f.version);
    DropTagBack(rest, 3, CHAIN_ID, f.chainId);
    DropTagBack(rest, 4, NONCE, f.nonce);
    DropTagBack(rest, 5, ISSUED_AT, f.issuedAt);
    hide DecodeTail, Tail, DropTag;
  }

  // ---- Lines without a line end, in well-formed UTF-16 ----

  ghost predicate Clean(l: Text) { LF !in l && WellFormed(l) }

  ghost predicate AllClean(lines: seq<Text>) { forall i :: 0 <= i < |lines| ==> Clean(lines[i]) }

  lemma GoodIsClean(s: Text)
    requires !BadField(s)
    ensures Clean(s)
  {
    LoneSurrogateIsIllFormed(s);
    assert forall i :: 0 <= i < |s| ==> !IsLineEnd(s[i]);
  }

  lemma PrintableIsClean(s: Text)
    requires forall i :: 0 <= i < |s| ==> 32 <= s[i] < 127
    ensures Clean(s)
  {
    AsciiWellFormed(s);
  }

  lemma CleanConcat(a: Text, b: Text)
    requires Clean(a) && Clean(b)
    ensures Clean(a + b)
  {
    WellFormedConcat(a, b);
  }

  lemma TaggedIsClean(tag: Text, s: Text)
    requires !BadField(s) && forall i :: 0 <= i < |tag| ==> 32 <= tag[i] < 127
    ensures Clean(tag + s) && Clean(s + tag)
  {
    GoodIsClean(s);
    PrintableIsClean(tag);
    CleanConcat(tag, s);
    CleanConcat(s, tag);
  }

  lemma OptIsClean(tag: Text, o: Option<Text>)
    requires GoodOption(o) && forall i :: 0 <= i < |tag| ==> 32 <= tag[i] < 127
    ensures AllClean(OptLine(tag, o))
  {
    if o.Some? { TaggedIsClean(tag, o.value); }
  }

  lemma {:induction false} BulletsClean(rs: seq<Text>)
    requires forall i :: 0 <= i < |rs| ==> !BadField(rs[i])
    ensures AllClean(Bullets(rs))
  {
    if rs != [] {
      TaggedIsClean(DASH, rs[0]);
      BulletsClean(rs[1..]);
    }
  }

  lemma TailClean(f: Fields)
    requires Accepted(f)
    ensures AllClean(Tail(f))
  {
    OptIsClean(EXPIRATION, f.expirationTime);
    OptIsClean(NOT_BEFORE, f.notBefore);
    OptIsClean(REQUEST_ID, f.requestId);
    if f.resources.Some? { BulletsClean(f.resources.value); }
    PrintableIsClean(RESOURCES);
    hide Clean, BadField;
  }

  lemma FixedClean(f: Fields)
    requires Accepted(f)
    ensures AllClean(Fixed(f))
  {
    PrintableIsClean([]);
    TaggedIsClean(URI, f.uri);
    PrintableIsClean(VERSION + f.version);
    TaggedIsClean(CHAIN_ID, f.chainId);
    PrintableIsClean(NONCE + f.nonce);
    TaggedIsClean(ISSUED_AT, f.issuedAt);
    hide Clean, BadField;
  }

  lemma LinesClean(f: Fields)
    requires Accepted(f)
    ensures AllClean(Lines(f))
  {
    TaggedIsClean(HEADER_SUFFIX, f.domain);
    PrintableIsClean(f.account);
    PrintableIsClean([]);
    if Normal(f).statement.Some? { GoodIsClean(f.statement.value); }
    FixedClean(f);
    TailClean(f);
    hide Clean, BadField, Fixed, Tail;
  }

  lemma {:induction false} JoinWellFormed(lines: seq<Text>)
    requires AllClean(lines)
    ensures WellFormed(Join(lines))
  {
    if |lines| > 1 {
      JoinWellFormed(lines[1..]);
      AsciiWellFormed([LF]);
      assert Clean(lines[0]);
      WellFormedConcat(lines[0], [LF]);
      WellFormedConcat(lines[0] + [LF], Join(lines[1..]));
    } else if lines != [] {
      assert Clean(lines[0]);
    }
  }

  // A message gives back the fields it was built from, up to an empty statement.
  lemma MessageDecodes(f: Fields)
    requires Accepted(f)
    ensures DecodeMessage(Join(Lines(f))) == Some(Normal(f))
  {
    LinesClean(f);
    assert Lines(f) == Lines(Normal(f));
    SplitJoin(Lines(f)) by { assert forall i :: 0 <= i < |Lines(f)| ==> Clean(Lines(f)[i]); }
    DecodeLinesBack(Normal(f));
  }

  // The UTF-8 bytes that are hashed and signed fix the fields.
  lemma SignedBytesFixFields(f: Fields, g: Fields)
    requires Accepted(f) && Accepted(g)
    ensures WellFormed(Join(Lines(f))) && WellFormed(Join(Lines(g)))
    ensures Bytes(Scalars(Join(Lines(f)))) == Bytes(Scalars(Join(Lines(g)))) ==> Normal(f) == Normal(g)
  {
    LinesClean(f);
    LinesClean(g);
    JoinWellFormed(Lines(f));
    JoinWellFormed(Lines(g));
    if Bytes(Scalars(Join(Lines(f)))) == Bytes(Scalars(Join(Lines(g)))) {
      Utf8Injective(Join(Lines(f)), Join(Lines(g)));
      MessageDecodes(f);
      MessageDecodes(g);
    }
  }
}
