// A reader of JSON text, sections 3 to 7 of RFC 8259, for integers and text
// without whitespace between tokens. It shares nothing with the writer, and
// says what the text behind a digest means and that none is shorter.
module JsonReader {
  import opened Wrappers
  import opened Strings
  import opened Json
  import opened Canonical

  // ---------------------------------------------------------------------
  // Strings
  // ---------------------------------------------------------------------

  function HexValue(c: char): int {
    if '0' <= c <= '9' then c as int - '0' as int
    else if 'a' <= c <= 'f' then c as int - 'a' as int + 10
    else if 'A' <= c <= 'F' then c as int - 'A' as int + 10
    else -1
  }

  // Four hexadecimal digits that name a character.
  function ReadHex(s: string): (r: Option<char>)
    ensures r.Some? ==> |s| >= 4
  {
    if |s| < 4 || HexValue(s[0]) < 0 || HexValue(s[1]) < 0 || HexValue(s[2]) < 0 || HexValue(s[3]) < 0 then None
    else
      var n := HexValue(s[0]) * 0x1000 + HexValue(s[1]) * 0x100 + HexValue(s[2]) * 0x10 + HexValue(s[3]);
      if 0xD800 <= n < 0xE000 then None else Some(n as char)
  }

  // What follows a backslash.
  function ReadEscape(s: string): (r: Option<(char, string)>)
    ensures r.Some? ==> |r.value.1| < |s|
  {
    if s == "" then None
    else if s[0] == 'u' then
      var c := ReadHex(s[1..]);
      if c.None? then None else Some((c.value, s[5..]))
    else
      match s[0]
      case '"' => Some(('"', s[1..]))
      case '\\' => Some(('\\', s[1..]))
      case '/' => Some(('/', s[1..]))
      case 'b' => Some(('\U{8}', s[1..]))
      case 'f' => Some(('\U{c}', s[1..]))
      case 'n' => Some(('\n', s[1..]))
      case 'r' => Some(('\r', s[1..]))
      case 't' => Some(('\t', s[1..]))
      case _ => None
  }

  // One character of a string and what is left.
  function ReadChar(s: string): (r: Option<(char, string)>)
    ensures r.Some? ==> |r.value.1| < |s|
  {
    if s == "" || s[0] == '"' || s[0] < ' ' then None
    else if s[0] == '\\' then ReadEscape(s[1..])
    else Some((s[0], s[1..]))
  }

  // A string whose opening quote has been read.
  function ReadString(s: string): (r: Option<(string, string)>)
    ensures r.Some? ==> |r.value.1| < |s|
    decreases |s|
  {
    if s != "" && s[0] == '"' then Some(("", s[1..]))
    else
      match ReadChar(s)
      case None => None
      case Some((c, rest)) =>
        match ReadString(rest)
        case None => None
        case Some((t, left)) => Some(([c] + t, left))
  }

  // ---------------------------------------------------------------------
  // Numbers
  // ---------------------------------------------------------------------

  // How many digits a text starts with.
  function DigitRun(s: string): (n: nat)
    ensures n <= |s|
  {
    if s == "" || !IsDigit(s[0]) then 0 else 1 + DigitRun(s[1..])
  }

  // Digits without a leading zero, unless zero is all there is.
  function ReadDigits(s: string): (r: Option<(int, string)>)
    ensures r.Some? ==> |r.value.1| < |s|
  {
    var n := DigitRun(s);
    if n == 0 || (n > 1 && s[0] == '0') then None else Some((DigitsValue(s[..n]), s[n..]))
  }

  function ReadNumber(s: string): (r: Option<(int, string)>)
    ensures r.Some? ==> |r.value.1| < |s|
  {
    if s == "" || s[0] != '-' then ReadDigits(s)
    else
      match ReadDigits(s[1..])
      case None => None
      case Some((n, rest)) => Some((-n, rest))
  }

  // ---------------------------------------------------------------------
  // Values
  // ---------------------------------------------------------------------

  function ReadValue(s: string): (r: Option<(Json, string)>)
    ensures r.Some? ==> |r.value.1| < |s|
    decreases |s|, 0
  {
    if "null" <= s then Some((Null, s[4..]))
    else if "true" <= s then Some((Bool(true), s[4..]))
    else if "false" <= s then Some((Bool(false), s[5..]))
    else if s == "" then None
    else if s[0] == '"' then
      match ReadString(s[1..])
      case None => None
      case Some((t, rest)) => Some((Str(t), rest))
    else if s[0] == '[' then
      match ReadItems(s[1..], true)
      case None => None
      case Some((vs, rest)) => Some((Arr(vs), rest))
    else if s[0] == '{' then
      match ReadFields(s[1..], true)
      case None => None
      case Some((fs, rest)) => Some((Obj(fs), rest))
    else
      match ReadNumber(s)
      case None => None
      case Some((n, rest)) => Some((Num(n), rest))
  }

  // The items of an array, up to its closing bracket; each but the first after a comma.
  function ReadItems(s: string, first: bool): (r: Option<(seq<Json>, string)>)
    ensures r.Some? ==> |r.value.1| < |s|
    decreases |s|, 1
  {
    if s != "" && s[0] == ']' then Some(([], s[1..]))
    else if !first && (s == "" || s[0] != ',') then None
    else
      match ReadValue(if first then s else s[1..])
      case None => None
      case Some((v, rest)) =>
        match ReadItems(rest, false)
        case None => None
        case Some((vs, left)) => Some(([v] + vs, left))
  }

  // A member of an object: a string, a colon and a value.
  function ReadMember(s: string): (r: Option<(Field, string)>)
    ensures r.Some? ==> |r.value.1| < |s|
    decreases |s|, 1
  {
    if s == "" || s[0] != '"' then None
    else
      match ReadString(s[1..])
      case None => None
      case Some((key, rest)) =>
        if rest == "" || rest[0] != ':' then None
        else
          match ReadValue(rest[1..])
          case None => None
          case Some((v, left)) => Some((Field(key, v), left))
  }

  function ReadFields(s: string, first: bool): (r: Option<(seq<Field>, string)>)
    ensures r.Some? ==> |r.value.1| < |s|
    decreases |s|, 2
  {
    if s != "" && s[0] == '}' then Some(([], s[1..]))
    else if !first && (s == "" || s[0] != ',') then None
    else
      match ReadMember(if first then s else s[1..])
      case None => None
      case Some((f, rest)) =>
        match ReadFields(rest, false)
        case None => None
        case Some((fs, left)) => Some(([f] + fs, left))
  }

  // ---------------------------------------------------------------------
  // The reader takes back what the writer wrote
  // ---------------------------------------------------------------------

  lemma HexReads(n: nat)
    requires n < 16
    ensures HexValue(Hex(n)) == n
  {
  }

  // An escape is written in lower case.
  lemma EscapesAreLower(c: char, i: nat)
    requires |EscapeChar(c)| > 1 && i < |EscapeChar(c)|
    ensures !('A' <= EscapeChar(c)[i] <= 'Z')
  {
  }

  lemma EscapeReads(c: char, k: string)
    ensures ReadChar(EscapeChar(c) + k) == Some((c, k))
  {
    var e, s := EscapeChar(c), EscapeChar(c) + k;
    assert s[|e|..] == k;
    if |e| == 6 {
      HexReads(c as int / 16);
      HexReads(c as int % 16);
      assert HexValue('0') == 0;
      assert s[1..][1..] == s[2..] && s[1..][5..] == k;
      assert s[2] == '0' && s[3] == '0' && s[4] == Hex(c as int / 16) && s[5] == Hex(c as int % 16);
      assert ReadHex(s[2..]) == Some(c);
    } else if |e| == 2 {
      assert s[1..][1..] == k && s[1..][0] == e[1];
    } else {
      assert s[1..] == k;
    }
  }

  lemma {:induction false} StringReads(s: string, k: string)
    ensures ReadString(WriteStr(s, k)) == Some((s, k))
  {
    hide EscapeChar, ReadChar;
    QuoteEnds(s, k);
    if s == "" {
      assert WriteStr(s, k)[1..] == k;
    } else {
      EscapeReads(s[0], WriteStr(s[1..], k));
      StringReads(s[1..], k);
      assert s == [s[0]] + s[1..];
    }
  }

  lemma {:induction false} RunEnds(d: string, k: string)
    requires (forall i :: 0 <= i < |d| ==> IsDigit(d[i])) && (k == "" || !IsDigit(k[0]))
    ensures DigitRun(d + k) == |d|
  {
    if d != "" {
      assert (d + k)[1..] == d[1..] + k;
      RunEnds(d[1..], k);
    } else {
      assert d + k == k;
    }
  }

  lemma {:induction false} NoLeadingZero(n: nat)
    ensures Digits(n)[0] == '0' ==> n == 0 && |Digits(n)| == 1
  {
    if n >= 10 {
      NoLeadingZero(n / 10);
      assert Digits(n)[0] == Digits(n / 10)[0];
    }
  }

  lemma {:induction false} DigitsReadBack(n: nat, k: string)
    requires Delimited(k)
    ensures ReadDigits(Digits(n) + k) == Some((n as int, k))
  {
    var d := Digits(n);
    RunEnds(d, k);
    NoLeadingZero(n);
    DigitsRead(n);
    assert (d + k)[..|d|] == d && (d + k)[|d|..] == k;
  }

  lemma NumberReads(n: int, k: string)
    requires Delimited(k)
    ensures ReadNumber(Decimal(n) + k) == Some((n, k))
  {
    hide ReadDigits;
    var d := Digits(Magnitude(n));
    DigitsReadBack(Magnitude(n), k);
    if n < 0 {
      assert Decimal(n) + k == "-" + (d + k);
      assert (Decimal(n) + k)[1..] == d + k;
    } else {
      assert Decimal(n) + k == d + k;
    }
  }

  // No other value's text starts with the first letter of a literal.
  lemma LiteralsApart(s: string)
    ensures "null" <= s ==> s[0] == 'n'
    ensures "true" <= s ==> s[0] == 't'
    ensures "false" <= s ==> s[0] == 'f'
  {
  }

  lemma {:induction false} FieldsHead(fs: seq<Field>, first: bool, k: string)
    requires fs != []
    ensures var s := WriteFields(fs, first, k);
            s != "" && (first || s[0] == ',')
            && (if first then s else s[1..])
               == "\"" + WriteStr(fs[0].key, ":" + Write(fs[0].val, WriteFields(fs[1..], false, k)))
  {
    var text := WriteStr(fs[0].key, ":" + Write(fs[0].val, WriteFields(fs[1..], false, k)));
    assert ("," + "\"" + text)[1..] == "\"" + text;
    assert "" + "\"" + text == "\"" + text;
  }

  lemma {:induction false} ReadBack(v: Json, k: string)
    requires Delimited(k)
    ensures ReadValue(Write(v, k)) == Some((v, k))
    decreases v, 2
  {
    hide ReadString, ReadNumber;
    var s := Write(v, k);
    LeadIsFirst(v, k);
    LiteralsApart(s);
    match v
    case Null => assert s[4..] == k;
    case Bool(b) => assert s[if b then 4 else 5..] == k;
    case Num(n) => NumberReads(n, k);
    case Str(t) =>
      assert s[1..] == WriteStr(t, k);
      StringReads(t, k);
    case Arr(items) =>
      assert s[1..] == WriteItems(items, true, k);
      ItemsReadBack(items, true, k);
    case Obj(fields) =>
      assert s[1..] == WriteFields(fields, true, k);
      FieldsReadBack(fields, true, k);
  }

  lemma {:induction false} ItemsReadBack(vs: seq<Json>, first: bool, k: string)
    ensures ReadItems(WriteItems(vs, first, k), first) == Some((vs, k))
    decreases vs, 1
  {
    var s := WriteItems(vs, first, k);
    ItemsFirst(vs, first, k);
    if vs == [] {
      assert s[1..] == k;
    } else {
      var rest := WriteItems(vs[1..], false, k);
      ItemsFirst(vs[1..], false, k);
      assert (if first then s else s[1..]) == Write(vs[0], rest);
      ReadBack(vs[0], rest);
      ItemsReadBack(vs[1..], false, k);
      assert vs == [vs[0]] + vs[1..];
    }
  }

  lemma {:induction false} MemberReadBack(f: Field, k: string)
    requires ReadValue(Write(f.val, k)) == Some((f.val, k))
    ensures ReadMember("\"" + WriteStr(f.key, ":" + Write(f.val, k))) == Some((f, k))
  {
    hide ReadString, ReadValue, Write, WriteStr;
    var value := Write(f.val, k);
    StringReads(f.key, ":" + value);
    assert ("\"" + WriteStr(f.key, ":" + value))[1..] == WriteStr(f.key, ":" + value);
    assert (":" + value)[1..] == value;
  }

  lemma {:induction false} FieldsReadBack(fs: seq<Field>, first: bool, k: string)
    ensures ReadFields(WriteFields(fs, first, k), first) == Some((fs, k))
    decreases fs, 1
  {
    hide ReadMember, ReadValue, ReadString, Write, WriteStr;
    var s := WriteFields(fs, first, k);
    FieldsFirst(fs, first, k);
    if fs == [] {
      assert s[1..] == k;
    } else {
      var rest := WriteFields(fs[1..], false, k);
      FieldsFirst(fs[1..], false, k);
      ReadBack(fs[0].val, rest);
      MemberReadBack(fs[0], rest);
      FieldsReadBack(fs[1..], false, k);
      var member := "\"" + WriteStr(fs[0].key, ":" + Write(fs[0].val, rest));
      assert (if first then s else s[1..]) == member by { FieldsHead(fs, first, k); }
      assert fs == [fs[0]] + fs[1..];
    }
  }

  // ---------------------------------------------------------------------
  // No text that reads as a value is shorter than the one that is written
  // ---------------------------------------------------------------------

  // What is still to come only adds its own length.
  lemma {:induction false} StrLength(s: string, j: string, k: string)
    ensures |WriteStr(s, j)| - |j| == |WriteStr(s, k)| - |k|
  {
    hide EscapeChar;
    if s != "" {
      StrLength(s[1..], j, k);
    }
  }

  lemma {:induction false} WriteLength(v: Json, j: string, k: string)
    ensures |Write(v, j)| - |j| == |Write(v, k)| - |k|
    decreases v, 2
  {
    match v
    case Str(s) => StrLength(s, j, k);
    case Arr(items) => ItemsLength(items, true, j, k);
    case Obj(fields) => FieldsLength(fields, true, j, k);
    case _ =>
  }

  lemma {:induction false} ItemsLength(vs: seq<Json>, first: bool, j: string, k: string)
    ensures |WriteItems(vs, first, j)| - |j| == |WriteItems(vs, first, k)| - |k|
    decreases vs, 1
  {
    if vs != [] {
      WriteLength(vs[0], WriteItems(vs[1..], false, j), WriteItems(vs[1..], false, k));
      ItemsLength(vs[1..], false, j, k);
    }
  }

  lemma {:induction false} FieldsLength(fs: seq<Field>, first: bool, j: string, k: string)
    ensures |WriteFields(fs, first, j)| - |j| == |WriteFields(fs, first, k)| - |k|
    decreases fs, 1
  {
    if fs != [] {
      var rj, rk := WriteFields(fs[1..], false, j), WriteFields(fs[1..], false, k);
      WriteLength(fs[0].val, rj, rk);
      StrLength(fs[0].key, ":" + Write(fs[0].val, rj), ":" + Write(fs[0].val, rk));
      FieldsLength(fs[1..], false, j, k);
    }
  }

  lemma EscapeLength(c: char)
    ensures |EscapeChar(c)| <= 6
    ensures c in {'"', '\\', '\U{8}', '\t', '\n', '\U{c}', '\r'} ==> |EscapeChar(c)| == 2
    ensures c >= ' ' && c != '"' && c != '\\' ==> |EscapeChar(c)| == 1
  {
  }

  lemma EscapeShortest(s: string)
    requires ReadChar(s).Some?
    ensures var (c, k) := ReadChar(s).value; |s| >= |EscapeChar(c)| + |k|
  {
    hide ReadHex, EscapeChar;
    EscapeLength(ReadChar(s).value.0);
  }

  lemma {:induction false} StringShortest(s: string)
    requires ReadString(s).Some?
    ensures var (t, k) := ReadString(s).value; |s| >= |WriteStr(t, k)|
    decreases |s|
  {
    hide EscapeChar, ReadChar;
    if s[0] != '"' {
      var (c, rest) := ReadChar(s).value;
      var (t, k) := ReadString(rest).value;
      EscapeShortest(s);
      StringShortest(rest);
      QuoteEnds([c] + t, k);
      assert ([c] + t)[1..] == t;
    }
  }

  lemma {:induction false} RunIsDigits(s: string)
    ensures forall i :: 0 <= i < DigitRun(s) ==> IsDigit(s[i])
  {
    if s != "" && IsDigit(s[0]) {
      RunIsDigits(s[1..]);
    }
  }

  lemma {:induction false} DigitsShortest(d: string)
    requires d != "" && forall i :: 0 <= i < |d| ==> IsDigit(d[i])
    ensures DigitsValue(d) >= 0 && |Digits(DigitsValue(d))| <= |d|
  {
    var init := d[..|d| - 1];
    if init != "" {
      DigitsShortest(init);
      assert DigitsValue(d) / 10 == DigitsValue(init);
    }
  }

  lemma NumberShortest(s: string)
    requires ReadNumber(s).Some?
    ensures var (n, k) := ReadNumber(s).value; |s| >= |Decimal(n)| + |k|
  {
    hide Digits, DigitsValue;
    var d := if s[0] == '-' then s[1..] else s;
    RunIsDigits(d);
    DigitsShortest(d[..DigitRun(d)]);
    var n := ReadNumber(s).value.0;
    assert Magnitude(n) == DigitsValue(d[..DigitRun(d)]);
    assert |Decimal(n)| == |Sign(n)| + |Digits(Magnitude(n))|;
  }

  lemma {:induction false} ValueShortest(s: string)
    requires ReadValue(s).Some?
    ensures var (v, k) := ReadValue(s).value; |s| >= |Write(v, k)|
    decreases |s|, 0
  {
    hide ReadString, ReadNumber;
    if "null" <= s || "true" <= s || "false" <= s {
    } else if s[0] == '"' {
      StringShortest(s[1..]);
    } else if s[0] == '[' {
      ItemsShortest(s[1..], true);
    } else if s[0] == '{' {
      FieldsShortest(s[1..], true);
    } else {
      NumberShortest(s);
    }
  }

  lemma {:induction false} ItemsShortest(s: string, first: bool)
    requires ReadItems(s, first).Some?
    ensures var (vs, k) := ReadItems(s, first).value; |s| >= |WriteItems(vs, first, k)|
    decreases |s|, 1
  {
    if s[0] != ']' {
      var body := if first then s else s[1..];
      var (v, rest) := ReadValue(body).value;
      var (vs, k) := ReadItems(rest, false).value;
      ValueShortest(body);
      ItemsShortest(rest, false);
      WriteLength(v, rest, WriteItems(vs, false, k));
      assert ([v] + vs)[1..] == vs;
    }
  }

  lemma {:induction false} FieldsShortest(s: string, first: bool)
    requires ReadFields(s, first).Some?
    ensures var (fs, k) := ReadFields(s, first).value; |s| >= |WriteFields(fs, first, k)|
    decreases |s|, 2
  {
    if s[0] != '}' {
      var body := if first then s else s[1..];
      var (f, rest) := ReadMember(body).value;
      var (fs, k) := ReadFields(rest, false).value;
      MemberShortest(body);
      FieldsShortest(rest, false);
      var left := WriteFields(fs, false, k);
      WriteLength(f.val, rest, left);
      StrLength(f.key, ":" + Write(f.val, rest), ":" + Write(f.val, left));
      assert ([f] + fs)[1..] == fs;
    }
  }

  lemma {:induction false} MemberShortest(s: string)
    requires ReadMember(s).Some?
    ensures var (f, k) := ReadMember(s).value; |s| >= 1 + |WriteStr(f.key, ":" + Write(f.val, k))|
    decreases |s|, 1
  {
    hide ReadString;
    var (key, rest) := ReadString(s[1..]).value;
    var (v, k) := ReadValue(rest[1..]).value;
    StringShortest(s[1..]);
    ValueShortest(rest[1..]);
    StrLength(key, rest, ":" + Write(v, k));
  }

  // ---------------------------------------------------------------------
  // Canonical JSON
  // ---------------------------------------------------------------------

  // The bytes that are hashed are the UTF-8 of a text that reads as the value with
  // its keys in ascending order, and no text that reads so is shorter.
  lemma CanonicalJsonReads(v: Json) returns (text: string, c: Json)
    requires WellFormed(v)
    ensures CanonicalJson(v) == Utf8(text) && ReadValue(text) == Some((c, ""))
    ensures SameValue(v, c) && Ascending(c)
    ensures forall t: string :: ReadValue(t) == Some((c, "")) ==> |t| >= |text|
  {
    hide Write, ReadValue;
    c := Canonicalize(v);
    text := Write(c, "");
    CanonicalizeIdempotent(v);
    CanonicalExactly(v, c);
    ReadBack(c, "");
    forall t: string | ReadValue(t) == Some((c, "")) ensures |t| >= |text| {
      ValueShortest(t);
    }
  }
}
