// transport/hashing.py: canonical JSON.
module Json {
  import opened Strings

  // A JSON-native value as Python holds it: a dict keeps insertion order.
  datatype Json =
    | Null
    | Bool(b: bool)
    | Num(n: int)
    | Str(s: string)
    | Arr(items: seq<Json>)
    | Obj(fields: seq<Field>)

  datatype Field = Field(key: string, val: Json)

  // ---------------------------------------------------------------------
  // _canonicalize: sort the keys of every dict
  // ---------------------------------------------------------------------

  // Stable insertion by key.
  function Insert(f: Field, fs: seq<Field>): (r: seq<Field>)
    ensures |r| == |fs| + 1
  {
    if fs == [] || AtMost(f.key, fs[0].key) then [f] + fs else [fs[0]] + Insert(f, fs[1..])
  }

  lemma {:induction false} InsertHolds(f: Field, fs: seq<Field>, g: Field)
    ensures g in Insert(f, fs) <==> g == f || g in fs
  {
    if fs != [] && !AtMost(f.key, fs[0].key) {
      InsertHolds(f, fs[1..], g);
    }
  }

  function Canonicalize(v: Json): Json
    decreases v, 1
  {
    match v
    case Arr(items) => Arr(CanonItems(items))
    case Obj(fields) => Obj(CanonFields(fields))
    case _ => v
  }

  function CanonItems(vs: seq<Json>): (r: seq<Json>)
    ensures |r| == |vs|
    decreases vs, 0
  {
    if vs == [] then [] else [Canonicalize(vs[0])] + CanonItems(vs[1..])
  }

  function CanonFields(fs: seq<Field>): (r: seq<Field>)
    ensures |r| == |fs|
    decreases fs, 0
  {
    if fs == [] then [] else Insert(Field(fs[0].key, Canonicalize(fs[0].val)), CanonFields(fs[1..]))
  }

  lemma {:induction false} CanonItemAt(vs: seq<Json>, i: nat)
    requires i < |vs|
    ensures CanonItems(vs)[i] == Canonicalize(vs[i])
  {
    if i > 0 {
      CanonItemAt(vs[1..], i - 1);
    }
  }

  // The canonical fields are the given ones, each with its value canonicalised.
  lemma {:induction false} CanonFieldsHolds(fs: seq<Field>, g: Field)
    ensures g in CanonFields(fs) <==> exists i :: 0 <= i < |fs| && g == Field(fs[i].key, Canonicalize(fs[i].val))
  {
    if fs != [] {
      var rest := fs[1..];
      CanonFieldsHolds(rest, g);
      InsertHolds(Field(fs[0].key, Canonicalize(fs[0].val)), CanonFields(rest), g);
      if g in CanonFields(rest) {
        var i :| 0 <= i < |rest| && g == Field(rest[i].key, Canonicalize(rest[i].val));
        assert fs[i + 1] == rest[i];
      }
      if i :| 0 < i < |fs| && g == Field(fs[i].key, Canonicalize(fs[i].val)) {
        assert rest[i - 1] == fs[i];
      }
    }
  }

  predicate Sorted(fs: seq<Field>) {
    forall i, j :: 0 <= i < j < |fs| ==> AtMost(fs[i].key, fs[j].key)
  }

  lemma {:induction false} InsertSorted(f: Field, fs: seq<Field>)
    requires Sorted(fs)
    ensures Sorted(Insert(f, fs))
  {
    if fs != [] {
      if AtMost(f.key, fs[0].key) {
        forall j | 0 <= j < |fs| ensures AtMost(f.key, fs[j].key) {
          if j > 0 { AtMostTransitive(f.key, fs[0].key, fs[j].key); }
        }
      } else {
        AtMostTotal(f.key, fs[0].key);
        InsertSorted(f, fs[1..]);
        var r := Insert(f, fs[1..]);
        forall j | 0 <= j < |r| ensures AtMost(fs[0].key, r[j].key) {
          InsertHolds(f, fs[1..], r[j]);
          if r[j] != f { assert exists m :: 0 < m < |fs| && fs[m] == r[j]; }
        }
      }
    }
  }

  lemma {:induction false} CanonFieldsSorted(fs: seq<Field>)
    ensures Sorted(CanonFields(fs))
  {
    if fs != [] {
      CanonFieldsSorted(fs[1..]);
      InsertSorted(Field(fs[0].key, Canonicalize(fs[0].val)), CanonFields(fs[1..]));
    }
  }

  // ---------------------------------------------------------------------
  // json.dumps with compact separators and ensure_ascii=False
  // ---------------------------------------------------------------------

  function Hex(n: nat): char
    requires n < 16
  {
    if n < 10 then '0' + n as char else 'a' + (n - 10) as char
  }

  // One character inside a string literal, section 7 of RFC 8259.
  function EscapeChar(c: char): string {
    if c == '"' then "\\\""
    else if c == '\\' then "\\\\"
    else if c == '\U{8}' then "\\b"
    else if c == '\t' then "\\t"
    else if c == '\n' then "\\n"
    else if c == '\U{c}' then "\\f"
    else if c == '\r' then "\\r"
    else if c < ' ' then "\\u00" + [Hex(c as int / 16), Hex(c as int % 16)]
    else [c]
  }

  // Each writer below yields the text of its first argument followed by `k`,
  // the output still to come.
  function WriteStr(s: string, k: string): string {
    if s == "" then "\"" + k else EscapeChar(s[0]) + WriteStr(s[1..], k)
  }

  function Write(v: Json, k: string): string
    decreases v, 2
  {
    match v
    case Null => "null" + k
    case Bool(b) => (if b then "true" else "false") + k
    case Num(n) => Decimal(n) + k
    case Str(s) => "\"" + WriteStr(s, k)
    case Arr(items) => "[" + WriteItems(items, true, k)
    case Obj(fields) => "{" + WriteFields(fields, true, k)
  }

  function WriteItems(vs: seq<Json>, first: bool, k: string): string
    decreases vs, 1
  {
    if vs == [] then "]" + k
    else (if first then "" else ",") + Write(vs[0], WriteItems(vs[1..], false, k))
  }

  function WriteFields(fs: seq<Field>, first: bool, k: string): string
    decreases fs, 1
  {
    if fs == [] then "}" + k
    else (if first then "" else ",") + "\"" + WriteStr(fs[0].key,
                                                       ":" + Write(fs[0].val, WriteFields(fs[1..], false, k)))
  }

  // canonical_json: json.dumps sorts the keys once more, and the text is encoded.
  function CanonicalJson(v: Json): seq<Byte> {
    Utf8(Write(Canonicalize(Canonicalize(v)), ""))
  }

  // ---------------------------------------------------------------------
  // The text determines the value
  // ---------------------------------------------------------------------

  // What may follow a value in JSON text.
  predicate Delimited(k: string) {
    k == "" || k[0] == ',' || k[0] == ']' || k[0] == '}'
  }

  lemma Tail(p: string, j: string, q: string, k: string)
    requires p + j == q + k
    requires |p| == |q|
    ensures p == q && j == k
  {
    assert p == (p + j)[..|p|] && q == (q + k)[..|q|];
    assert j == (p + j)[|p|..] && k == (q + k)[|q|..];
  }

  lemma Prefix(p: string, k: string)
    ensures forall i :: 0 <= i < |p| ==> (p + k)[i] == p[i]
    ensures k != "" ==> (p + k)[|p|] == k[0]
  {
  }

  lemma EscapesDiffer(c: char, d: char)
    requires c != d
    ensures exists i :: 0 <= i < |EscapeChar(c)| && i < |EscapeChar(d)| && EscapeChar(c)[i] != EscapeChar(d)[i]
  {
    var p, q := EscapeChar(c), EscapeChar(d);
    if p[0] == q[0] && p[1] == q[1] {
      assert |p| == 6 && |q| == 6;
      assert c as int == 16 * (c as int / 16) + c as int % 16 && d as int == 16 * (d as int / 16) + d as int % 16;
      assert p[4] != q[4] || p[5] != q[5];
    }
  }

  lemma EscapePrefixFree(c: char, j: string, d: char, k: string)
    requires EscapeChar(c) + j == EscapeChar(d) + k
    ensures c == d && j == k
  {
    Prefix(EscapeChar(c), j);
    Prefix(EscapeChar(d), k);
    if c != d {
      EscapesDiffer(c, d);
      assert false;
    }
    Tail(EscapeChar(c), j, EscapeChar(d), k);
  }

  // A closing quote comes first only when nothing is left to write.
  lemma {:induction false} QuoteEnds(s: string, k: string)
    ensures WriteStr(s, k) != "" && (WriteStr(s, k)[0] == '"' <==> s == "")
    ensures s != "" ==> WriteStr(s, k) == EscapeChar(s[0]) + WriteStr(s[1..], k)
  {
    if s != "" {
      Prefix(EscapeChar(s[0]), WriteStr(s[1..], k));
      assert EscapeChar(s[0])[0] != '"';
    }
  }

  lemma {:induction false} WriteStrInjective(s: string, j: string, t: string, k: string)
    requires WriteStr(s, j) == WriteStr(t, k)
    ensures s == t && j == k
  {
    hide EscapeChar;
    QuoteEnds(s, j);
    QuoteEnds(t, k);
    if s == "" {
      Tail("\"", j, "\"", k);
    } else {
      EscapePrefixFree(s[0], WriteStr(s[1..], j), t[0], WriteStr(t[1..], k));
      WriteStrInjective(s[1..], j, t[1..], k);
      assert s == [s[0]] + s[1..] && t == [t[0]] + t[1..];
    }
  }

  lemma {:induction false} DigitsSplit(p: string, j: string, q: string, k: string)
    requires p + j == q + k
    requires forall i :: 0 <= i < |p| ==> IsDigit(p[i])
    requires forall i :: 0 <= i < |q| ==> IsDigit(q[i])
    requires Delimited(j) && Delimited(k)
    ensures p == q && j == k
  {
    Prefix(p, j);
    Prefix(q, k);
    Tail(p, j, q, k);
  }

  lemma SignedSplit(a: int, p: string, j: string, b: int, q: string, k: string)
    requires (Sign(a) + p) + j == (Sign(b) + q) + k
    requires p != "" && forall i :: 0 <= i < |p| ==> IsDigit(p[i])
    requires q != "" && forall i :: 0 <= i < |q| ==> IsDigit(q[i])
    requires Delimited(j) && Delimited(k)
    ensures (a < 0) == (b < 0) && p == q && j == k
  {
    Prefix(Sign(a) + p, j);
    Prefix(Sign(b) + q, k);
    assert (Sign(a) + p)[0] == (Sign(b) + q)[0];
    assert (Sign(a) + p) + j == Sign(a) + (p + j) && (Sign(b) + q) + k == Sign(b) + (q + k);
    Tail(Sign(a), p + j, Sign(b), q + k);
    DigitsSplit(p, j, q, k);
  }

  lemma DecimalSplit(a: int, j: string, b: int, k: string)
    requires Decimal(a) + j == Decimal(b) + k
    requires Delimited(j) && Delimited(k)
    ensures a == b && j == k
  {
    SignedSplit(a, Digits(Magnitude(a)), j, b, Digits(Magnitude(b)), k);
    DigitsRead(Magnitude(a));
    DigitsRead(Magnitude(b));
  }

  // The first character of a value's text tells which kind of value it is.
  function Lead(v: Json): char {
    match v
    case Null => 'n'
    case Bool(b) => if b then 't' else 'f'
    case Num(n) => Decimal(n)[0]
    case Str(_) => '"'
    case Arr(_) => '['
    case Obj(_) => '{'
  }

  lemma {:induction false} LeadIsFirst(v: Json, k: string)
    ensures Write(v, k) != "" && Write(v, k)[0] == Lead(v)
    ensures Lead(v) != ']' && Lead(v) != '}' && Lead(v) != ','
  {
  }

  lemma SameKind(a: Json, b: Json)
    requires Lead(a) == Lead(b)
    ensures a.Null? == b.Null? && a.Bool? == b.Bool? && a.Num? == b.Num?
    ensures a.Str? == b.Str? && a.Arr? == b.Arr? && a.Obj? == b.Obj?
    ensures a.Bool? ==> a == b
  {
  }

  lemma {:induction false} WriteInjective(a: Json, j: string, b: Json, k: string)
    requires Write(a, j) == Write(b, k)
    requires Delimited(j) && Delimited(k)
    ensures a == b && j == k
    decreases a, 2
  {
    LeadIsFirst(a, j);
    LeadIsFirst(b, k);
    SameKind(a, b);
    match a
    case Null => Tail("null", j, "null", k);
    case Bool(c) => Tail(if c then "true" else "false", j, if c then "true" else "false", k);
    case Num(n) => DecimalSplit(n, j, b.n, k);
    case Str(s) =>
      Tail("\"", WriteStr(s, j), "\"", WriteStr(b.s, k));
      WriteStrInjective(s, j, b.s, k);
    case Arr(items) =>
      Tail("[", WriteItems(items, true, j), "[", WriteItems(b.items, true, k));
      WriteItemsInjective(items, true, j, b.items, k);
    case Obj(fields) =>
      Tail("{", WriteFields(fields, true, j), "{", WriteFields(b.fields, true, k));
      WriteFieldsInjective(fields, true, j, b.fields, k);
  }

  lemma {:induction false} ItemsFirst(vs: seq<Json>, first: bool, k: string)
    ensures !first ==> Delimited(WriteItems(vs, first, k))
    ensures WriteItems(vs, first, k) != "" && (WriteItems(vs, first, k)[0] == ']' <==> vs == [])
  {
    if vs != [] {
      LeadIsFirst(vs[0], WriteItems(vs[1..], false, k));
      Prefix(if first then "" else ",", Write(vs[0], WriteItems(vs[1..], false, k)));
    }
  }

  lemma {:induction false} FieldsFirst(fs: seq<Field>, first: bool, k: string)
    ensures !first ==> Delimited(WriteFields(fs, first, k))
    ensures WriteFields(fs, first, k) != "" && (WriteFields(fs, first, k)[0] == '}' <==> fs == [])
  {
  }

  lemma {:induction false} WriteItemsInjective(a: seq<Json>, first: bool, j: string, b: seq<Json>, k: string)
    requires WriteItems(a, first, j) == WriteItems(b, first, k)
    ensures a == b && j == k
    decreases a, 1
  {
    ItemsFirst(a, first, j);
    ItemsFirst(b, first, k);
    if a == [] {
      Tail("]", j, "]", k);
    } else {
      var comma := if first then "" else ",";
      var ra, rb := WriteItems(a[1..], false, j), WriteItems(b[1..], false, k);
      Tail(comma, Write(a[0], ra), comma, Write(b[0], rb));
      ItemsFirst(a[1..], false, j);
      ItemsFirst(b[1..], false, k);
      WriteInjective(a[0], ra, b[0], rb);
      WriteItemsInjective(a[1..], false, j, b[1..], k);
      assert a == [a[0]] + a[1..] && b == [b[0]] + b[1..];
    }
  }

  lemma {:induction false} WriteFieldsInjective(a: seq<Field>, first: bool, j: string, b: seq<Field>, k: string)
    requires WriteFields(a, first, j) == WriteFields(b, first, k)
    ensures a == b && j == k
    decreases a, 1
  {
    FieldsFirst(a, first, j);
    FieldsFirst(b, first, k);
    if a == [] {
      Tail("}", j, "}", k);
    } else {
      var head := (if first then "" else ",") + "\"";
      var ra, rb := WriteFields(a[1..], false, j), WriteFields(b[1..], false, k);
      var va, vb := Write(a[0].val, ra), Write(b[0].val, rb);
      Tail(head, WriteStr(a[0].key, ":" + va), head, WriteStr(b[0].key, ":" + vb));
      WriteStrInjective(a[0].key, ":" + va, b[0].key, ":" + vb);
      Tail(":", va, ":", vb);
      FieldsFirst(a[1..], false, j);
      FieldsFirst(b[1..], false, k);
      WriteInjective(a[0].val, ra, b[0].val, rb);
      WriteFieldsInjective(a[1..], false, j, b[1..], k);
      assert a == [a[0]] + a[1..] && b == [b[0]] + b[1..];
    }
  }
}
