// String operations of the Python standard library that the transport relies on.
module Strings {

  // str.isspace characters, the ones str.strip() removes.
  predicate IsSpace(c: char) {
    || '\t' <= c <= '\r'
    || '\U{1c}' <= c <= ' '
    || c == '\U{85}' || c == '\U{a0}' || c == '\U{1680}'
    || '\U{2000}' <= c <= '\U{200a}'
    || c == '\U{2028}' || c == '\U{2029}' || c == '\U{202f}' || c == '\U{205f}' || c == '\U{3000}'
  }

  // str.lower() on the ASCII letters; every other character is left alone.
  function LowerChar(c: char): char {
    if 'A' <= c <= 'Z' then c + 32 as char else c
  }

  function Lower(s: string): string {
    seq(|s|, i requires 0 <= i < |s| => LowerChar(s[i]))
  }

  // str.upper() on the ASCII letters.
  function UpperChar(c: char): char {
    if 'a' <= c <= 'z' then c - 32 as char else c
  }

  function Upper(s: string): string {
    seq(|s|, i requires 0 <= i < |s| => UpperChar(s[i]))
  }

  function StripLeft(s: string, drop: char -> bool): string {
    if s == "" || !drop(s[0]) then s else StripLeft(s[1..], drop)
  }

  lemma {:induction false} StripLeftSpec(s: string, drop: char -> bool)
    ensures var r := StripLeft(s, drop);
            && |r| <= |s| && r == s[|s| - |r|..]
            && (r != "" ==> !drop(r[0]))
            && forall i :: 0 <= i < |s| - |r| ==> drop(s[i])
  {
    if s != "" && drop(s[0]) {
      StripLeftSpec(s[1..], drop);
      var t, r := s[1..], StripLeft(s[1..], drop);
      assert t[|t| - |r|..] == s[|s| - |r|..];
      forall i | 0 <= i < |s| - |r| ensures drop(s[i]) {
        if i > 0 { assert s[i] == t[i - 1]; }
      }
    }
  }

  function StripRight(s: string, drop: char -> bool): string {
    if s == "" || !drop(s[|s| - 1]) then s else StripRight(s[..|s| - 1], drop)
  }

  lemma {:induction false} StripRightSpec(s: string, drop: char -> bool)
    ensures var r := StripRight(s, drop);
            && |r| <= |s| && r == s[..|r|]
            && (r != "" ==> !drop(r[|r| - 1]))
            && forall i :: |r| <= i < |s| ==> drop(s[i])
  {
    if s != "" && drop(s[|s| - 1]) { StripRightSpec(s[..|s| - 1], drop); }
  }

  // str.strip(chars), with `drop` the set of characters to remove.
  function StripChars(s: string, drop: char -> bool): string {
    StripRight(StripLeft(s, drop), drop)
  }

  // str.strip()
  function Strip(s: string): string {
    StripChars(s, IsSpace)
  }

  // value.strip().lower(), the normal form of every node name and action.
  function Norm(s: string): string {
    Lower(Strip(s))
  }

  predicate Trimmed(s: string, drop: char -> bool) {
    s == "" || (!drop(s[0]) && !drop(s[|s| - 1]))
  }

  // Stripping is the identity exactly on the texts with no edge to remove.
  lemma StripTrims(s: string, drop: char -> bool)
    ensures Trimmed(StripChars(s, drop), drop)
    ensures Trimmed(s, drop) <==> StripChars(s, drop) == s
    ensures |StripChars(s, drop)| <= |s|
  {
    var l := StripLeft(s, drop);
    var r := StripRight(l, drop);
    StripLeftSpec(s, drop);
    StripRightSpec(l, drop);
    if r != "" {
      assert r[0] == l[0];
    }
    if Trimmed(s, drop) && s != "" {
      assert l == s;
      assert r == l[..|r|];
      assert r == s;
    }
  }

  lemma LowerIdempotent(s: string)
    ensures Lower(Lower(s)) == Lower(s)
  {
  }

  lemma LowerKeepsTrimmed(s: string)
    requires Trimmed(s, IsSpace)
    ensures Trimmed(Lower(s), IsSpace)
  {
  }

  lemma UpperIdempotent(s: string)
    ensures Upper(Upper(s)) == Upper(s)
  {
  }

  lemma UpperKeepsTrimmed(s: string)
    requires Trimmed(s, IsSpace)
    ensures Trimmed(Upper(s), IsSpace)
  {
  }

  lemma ShoutIdempotent(s: string)
    ensures Strip(Upper(Strip(s))) == Upper(Strip(s))
    ensures Upper(Strip(Upper(Strip(s)))) == Upper(Strip(s))
    ensures Upper(Strip(s)) == "" <==> Strip(s) == ""
  {
    StripTrims(s, IsSpace);
    UpperKeepsTrimmed(Strip(s));
    StripTrims(Upper(Strip(s)), IsSpace);
    UpperIdempotent(Strip(s));
  }

  lemma NormIdempotent(s: string)
    ensures Strip(Strip(s)) == Strip(s)
    ensures Strip(Norm(s)) == Norm(s)
    ensures Norm(Norm(s)) == Norm(s)
    ensures Norm(s) == "" <==> Strip(s) == ""
  {
    StripTrims(s, IsSpace);
    StripTrims(Strip(s), IsSpace);
    LowerKeepsTrimmed(Strip(s));
    StripTrims(Norm(s), IsSpace);
    LowerIdempotent(Strip(s));
  }

  // A text of lowercase letters, digits, underscores and hyphens is in normal form.
  lemma WordIsNormal(s: string)
    requires forall i :: 0 <= i < |s| ==> 'a' <= s[i] <= 'z' || '0' <= s[i] <= '9' || s[i] in {'_', '-'}
    ensures Norm(s) == s
  {
    StripTrims(s, IsSpace);
  }

  // str comparison by code point.
  predicate AtMost(a: string, b: string) {
    a == "" || (b != "" && (a[0] < b[0] || (a[0] == b[0] && AtMost(a[1..], b[1..]))))
  }

  lemma {:induction false} AtMostAntisymmetric(a: string, b: string)
    requires AtMost(a, b) && AtMost(b, a)
    ensures a == b
  {
    if a != "" {
      AtMostAntisymmetric(a[1..], b[1..]);
      assert a == [a[0]] + a[1..] && b == [b[0]] + b[1..];
    }
  }

  lemma {:induction false} AtMostTotal(a: string, b: string)
    ensures AtMost(a, b) || AtMost(b, a)
  {
    if a != "" && b != "" {
      AtMostTotal(a[1..], b[1..]);
    }
  }

  lemma {:induction false} AtMostTransitive(a: string, b: string, c: string)
    requires AtMost(a, b) && AtMost(b, c)
    ensures AtMost(a, c)
  {
    if a != "" && a[0] == b[0] && b[0] == c[0] {
      AtMostTransitive(a[1..], b[1..], c[1..]);
    }
  }

  // The first `n` characters agree and the next one is smaller.
  predicate SmallerAt(a: string, b: string, n: nat) {
    n < |a| && n < |b| && a[..n] == b[..n] && a[n] < b[n]
  }

  // The order in which Python compares two texts: at the first place where they
  // differ the smaller code point comes first, and a beginning before what continues it.
  ghost predicate Below(a: string, b: string) {
    a < b || exists n: nat :: SmallerAt(a, b, n)
  }

  // A common first character does not count.
  lemma SmallerAtNext(c: char, s: string, t: string, n: nat)
    ensures SmallerAt([c] + s, [c] + t, n + 1) <==> SmallerAt(s, t, n)
    ensures !SmallerAt([c] + s, [c] + t, 0)
  {
    var a, b := [c] + s, [c] + t;
    if n < |s| && n < |t| {
      assert a[..n + 1] == [c] + s[..n] && b[..n + 1] == [c] + t[..n];
      assert a[..n + 1] == b[..n + 1] ==> s[..n] == a[..n + 1][1..] && t[..n] == b[..n + 1][1..];
    }
  }

  lemma BelowNext(c: char, s: string, t: string)
    ensures Below([c] + s, [c] + t) <==> Below(s, t)
  {
    var a, b := [c] + s, [c] + t;
    if n: nat :| SmallerAt(a, b, n) {
      SmallerAtNext(c, s, t, if n > 0 then n - 1 else 0);
    }
    if n: nat :| SmallerAt(s, t, n) {
      SmallerAtNext(c, s, t, n);
    }
    assert s <= t ==> a <= b;
    if a <= b {
      assert forall i :: 0 <= i < |s| ==> s[i] == a[i + 1] && t[i] == b[i + 1];
    }
  }

  lemma BelowDiffers(a: string, b: string)
    requires a == "" || b == "" || a[0] != b[0]
    ensures Below(a, b) <==> b != "" && (a == "" || a[0] < b[0])
  {
    forall n: nat ensures SmallerAt(a, b, n) ==> n == 0 {
      assert 0 < n < |a| && n < |b| ==> a[..n][0] == a[0] && b[..n][0] == b[0];
    }
    if a != "" && b != "" && a[0] < b[0] {
      assert SmallerAt(a, b, 0);
    }
  }

  lemma {:induction false} AtMostMeans(a: string, b: string)
    ensures AtMost(a, b) <==> a == b || Below(a, b)
  {
    hide Below;
    if a == "" || b == "" || a[0] != b[0] {
      BelowDiffers(a, b);
    } else {
      AtMostMeans(a[1..], b[1..]);
      BelowNext(a[0], a[1..], b[1..]);
      assert a == [a[0]] + a[1..] && b == [b[0]] + b[1..];
    }
  }

  // Decimal digits of an integer, as json.dumps writes an int.
  predicate IsDigit(c: char) {
    '0' <= c <= '9'
  }

  function Digits(n: nat): (r: string)
    ensures r != ""
    ensures forall i :: 0 <= i < |r| ==> IsDigit(r[i])
  {
    var last := ['0' + (n % 10) as char];
    if n < 10 then last else Digits(n / 10) + last
  }

  function Sign(n: int): string {
    if n < 0 then "-" else ""
  }

  function Magnitude(n: int): nat {
    if n < 0 then -n else n
  }

  function Decimal(n: int): string {
    Sign(n) + Digits(Magnitude(n))
  }

  function DigitsValue(s: string): int {
    if s == "" then 0
    else DigitsValue(s[..|s| - 1]) * 10 + (s[|s| - 1] as int - '0' as int)
  }

  lemma {:induction false} DigitsRead(n: nat)
    ensures DigitsValue(Digits(n)) == n
  {
    var r := Digits(n);
    if n < 10 {
      assert r[..0] == "";
    } else {
      DigitsRead(n / 10);
      assert r[..|r| - 1] == Digits(n / 10);
    }
  }

  predicate IsAscii(s: string) {
    forall i :: 0 <= i < |s| ==> s[i] < '\U{80}'
  }

  // ---------------------------------------------------------------------
  // str.encode("utf-8"), section 3 of RFC 3629
  // ---------------------------------------------------------------------

  type Byte = n: int | 0 <= n < 256

  // The last six bits of a number, in a byte that continues a character.
  function Continuation(n: nat): Byte {
    0x80 + n % 0x40
  }

  function Utf8Char(c: char): seq<Byte> {
    var n := c as int;
    if n < 0x80 then [n]
    else if n < 0x800 then [0xC0 + n / 0x40, Continuation(n)]
    else if n < 0x1_0000 then [0xE0 + n / 0x1000, Continuation(n / 0x40), Continuation(n)]
    else [0xF0 + n / 0x4_0000, Continuation(n / 0x1000), Continuation(n / 0x40), Continuation(n)]
  }

  function Utf8(s: string): seq<Byte> {
    if s == "" then [] else Utf8Char(s[0]) + Utf8(s[1..])
  }

  // The number that the bytes of one character stand for.
  function Utf8Read(b: seq<int>): int {
    if |b| == 1 then b[0]
    else if |b| == 2 then (b[0] - 0xC0) * 0x40 + b[1] - 0x80
    else if |b| == 3 then (b[0] - 0xE0) * 0x1000 + (b[1] - 0x80) * 0x40 + b[2] - 0x80
    else if |b| == 4 then (b[0] - 0xF0) * 0x4_0000 + (b[1] - 0x80) * 0x1000 + (b[2] - 0x80) * 0x40 + b[3] - 0x80
    else -1
  }

  lemma SixBits(n: nat)
    ensures n == n / 0x40 * 0x40 + n % 0x40
    ensures n / 0x40 / 0x40 == n / 0x1000 && n / 0x1000 / 0x40 == n / 0x4_0000
  {
  }

  lemma Utf8ReadsBack(c: char)
    ensures Utf8Read(Utf8Char(c)) == c as int
  {
    var n := c as int;
    SixBits(n);
    SixBits(n / 0x40);
    SixBits(n / 0x1000);
  }

  // The first byte tells how many bytes a character has.
  lemma LeadByte(c: char)
    ensures 1 <= |Utf8Char(c)| <= 4
    ensures var lead := Utf8Char(c)[0];
            |Utf8Char(c)| == if lead < 0x80 then 1 else if lead < 0xE0 then 2 else if lead < 0xF0 then 3 else 4
  {
  }

  // What a text starts with is decided by its bytes.
  lemma Utf8CharInjective(c: char, j: seq<Byte>, d: char, k: seq<Byte>)
    requires Utf8Char(c) + j == Utf8Char(d) + k
    ensures c == d && j == k
  {
    hide Utf8Char;
    LeadByte(c);
    LeadByte(d);
    Utf8ReadsBack(c);
    Utf8ReadsBack(d);
    var a, b := Utf8Char(c), Utf8Char(d);
    assert a[0] == (a + j)[0] == (b + k)[0] == b[0];
    assert |a| == |b|;
    assert a == (a + j)[..|a|] == (b + k)[..|b|] == b;
    assert j == (a + j)[|a|..] == (b + k)[|b|..] == k;
  }

  // Different texts have different bytes.
  lemma {:induction false} Utf8Injective(s: string, t: string)
    requires Utf8(s) == Utf8(t)
    ensures s == t
  {
    hide Utf8Char;
    assert s != "" ==> |Utf8(s)| > 0 by { if s != "" { LeadByte(s[0]); } }
    assert t != "" ==> |Utf8(t)| > 0 by { if t != "" { LeadByte(t[0]); } }
    if s != "" && t != "" {
      Utf8CharInjective(s[0], Utf8(s[1..]), t[0], Utf8(t[1..]));
      Utf8Injective(s[1..], t[1..]);
      assert s == [s[0]] + s[1..] && t == [t[0]] + t[1..];
    }
  }

  // The bytes of one character by the table of section 3: the right number, in
  // the shortest form.
  predicate Encodes(b: seq<int>, c: char) {
    && Utf8Read(b) == c as int
    && (forall i :: 0 < i < |b| ==> 0x80 <= b[i] < 0xC0)
    && match |b|
       case 1 => 0 <= b[0] < 0x80
       case 2 => 0xC0 <= b[0] < 0xE0 && c as int >= 0x80
       case 3 => 0xE0 <= b[0] < 0xF0 && c as int >= 0x800
       case _ => 0xF0 <= b[0] < 0xF8 && c as int >= 0x1_0000
  }

  lemma Utf8CharEncodes(c: char)
    ensures Encodes(Utf8Char(c), c)
  {
    Utf8ReadsBack(c);
  }

  // How many bytes a character has.
  lemma EncodedLength(b: seq<int>, c: char)
    requires Encodes(b, c)
    ensures var n := c as int;
            |b| == if n < 0x80 then 1 else if n < 0x800 then 2 else if n < 0x1_0000 then 3 else 4
  {
  }

  // Digits below 64 are decided by the number they make.
  lemma SameDigits(a: int, x: int, b: int, y: int)
    requires a * 0x40 + x == b * 0x40 + y && 0 <= x < 0x40 && 0 <= y < 0x40
    ensures a == b && x == y
  {
  }

  lemma SameBytes(a0: int, a1: int, a2: int, a3: int, b0: int, b1: int, b2: int, b3: int)
    requires a0 * 0x4_0000 + a1 * 0x1000 + a2 * 0x40 + a3 == b0 * 0x4_0000 + b1 * 0x1000 + b2 * 0x40 + b3
    requires 0 <= a1 < 0x40 && 0 <= a2 < 0x40 && 0 <= a3 < 0x40 && 0 <= b1 < 0x40 && 0 <= b2 < 0x40 && 0 <= b3 < 0x40
    ensures a0 == b0 && a1 == b1 && a2 == b2 && a3 == b3
  {
    SameDigits(a0 * 0x1000 + a1 * 0x40 + a2, a3, b0 * 0x1000 + b1 * 0x40 + b2, b3);
    SameDigits(a0 * 0x40 + a1, a2, b0 * 0x40 + b1, b2);
    SameDigits(a0, a1, b0, b1);
  }

  lemma EncodedOnce(a: seq<int>, b: seq<int>, c: char)
    requires Encodes(a, c) && Encodes(b, c)
    ensures a == b
  {
    EncodedLength(a, c);
    EncodedLength(b, c);
    if |a| == 2 {
      SameBytes(0, 0, a[0] - 0xC0, a[1] - 0x80, 0, 0, b[0] - 0xC0, b[1] - 0x80);
    } else if |a| == 3 {
      SameBytes(0, a[0] - 0xE0, a[1] - 0x80, a[2] - 0x80, 0, b[0] - 0xE0, b[1] - 0x80, b[2] - 0x80);
    } else if |a| == 4 {
      SameBytes(a[0] - 0xF0, a[1] - 0x80, a[2] - 0x80, a[3] - 0x80,
                b[0] - 0xF0, b[1] - 0x80, b[2] - 0x80, b[3] - 0x80);
    }
  }

  lemma Utf8CharExactly(c: char, b: seq<Byte>)
    ensures b == Utf8Char(c) <==> Encodes(b, c)
  {
    hide Utf8Char, Encodes;
    Utf8CharEncodes(c);
    if Encodes(b, c) {
      EncodedOnce(b, Utf8Char(c), c);
    }
  }

  lemma {:induction false} Utf8Concat(a: string, b: string)
    ensures Utf8(a + b) == Utf8(a) + Utf8(b)
  {
    hide Utf8Char;
    if a == "" {
      assert a + b == b;
    } else {
      assert (a + b)[0] == a[0] && (a + b)[1..] == a[1..] + b;
      Utf8Concat(a[1..], b);
    }
  }

  // The bytes of a text are those of its characters in order.
  lemma {:induction false} Utf8Exactly(s: string, t: string, c: char)
    ensures Utf8(s + t) == Utf8(s) + Utf8(t)
    ensures Utf8("") == [] && Encodes(Utf8([c]), c)
  {
    hide Encodes, Utf8Char;
    Utf8Concat(s, t);
    Utf8CharExactly(c, Utf8Char(c));
    assert [c][1..] == "";
    assert Utf8([c]) == Utf8Char(c) + Utf8("") == Utf8Char(c);
  }
}
