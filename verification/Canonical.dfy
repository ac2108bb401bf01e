// What canonical JSON says about the values it was made from.
module Canonical {
  import opened Strings
  import opened Json

  ghost predicate DistinctKeys(fs: seq<Field>) {
    forall i, j :: 0 <= i < j < |fs| ==> fs[i].key != fs[j].key
  }

  // A dict has one entry for each key, at every depth.
  ghost predicate WellFormed(v: Json) {
    match v
    case Arr(items) => forall i :: 0 <= i < |items| ==> WellFormed(items[i])
    case Obj(fields) => DistinctKeys(fields) && forall i :: 0 <= i < |fields| ==> WellFormed(fields[i].val)
    case _ => true
  }

  // The same JSON value: the order of an object's keys does not count.
  ghost predicate SameValue(a: Json, b: Json) {
    match a
    case Arr(items) =>
      && b.Arr? && |items| == |b.items|
      && forall i :: 0 <= i < |items| ==> SameValue(items[i], b.items[i])
    case Obj(fields) =>
      && b.Obj? && |fields| == |b.fields|
      && forall i :: 0 <= i < |fields| ==>
        exists j :: 0 <= j < |b.fields| && fields[i].key == b.fields[j].key && SameValue(fields[i].val, b.fields[j].val)
    case _ => a == b
  }

  ghost predicate HasKey(fs: seq<Field>, k: string) {
    exists i :: 0 <= i < |fs| && fs[i].key == k
  }

  function KeySet(fs: seq<Field>): set<string> {
    set i | 0 <= i < |fs| :: fs[i].key
  }

  lemma {:induction false} KeySetSize(fs: seq<Field>)
    requires DistinctKeys(fs)
    ensures |KeySet(fs)| == |fs|
  {
    if fs != [] {
      var init, last := fs[..|fs| - 1], fs[|fs| - 1];
      KeySetSize(init);
      assert KeySet(fs) == KeySet(init) + {last.key} by {
        assert forall i :: 0 <= i < |init| ==> fs[i] == init[i];
      }
      assert last.key !in KeySet(init);
    }
  }

  lemma SubsetOfSameSize(a: set<string>, b: set<string>)
    requires a <= b && |a| == |b|
    ensures a == b
  {
    assert |b - a| == |b| - |a|;
    assert b - a == {};
  }

  // Equally many keys, each of the first among the second: then also the other way round.
  lemma KeysMatchBack(fs: seq<Field>, gs: seq<Field>)
    requires DistinctKeys(fs) && DistinctKeys(gs) && |fs| == |gs|
    requires forall i :: 0 <= i < |fs| ==> HasKey(gs, fs[i].key)
    ensures forall j :: 0 <= j < |gs| ==> HasKey(fs, gs[j].key)
  {
    KeySetSize(fs);
    KeySetSize(gs);
    SubsetOfSameSize(KeySet(fs), KeySet(gs));
    forall j | 0 <= j < |gs| ensures HasKey(fs, gs[j].key) {
      assert gs[j].key in KeySet(gs);
    }
  }

  lemma {:induction false} InsertDistinct(f: Field, fs: seq<Field>)
    requires DistinctKeys(fs)
    requires forall i :: 0 <= i < |fs| ==> fs[i].key != f.key
    ensures DistinctKeys(Insert(f, fs))
  {
    if fs != [] && !AtMost(f.key, fs[0].key) {
      InsertDistinct(f, fs[1..]);
      var r := Insert(f, fs[1..]);
      forall j | 0 <= j < |r| ensures r[j].key != fs[0].key {
        InsertHolds(f, fs[1..], r[j]);
      }
    }
  }

  lemma {:induction false} CanonFieldsDistinct(fs: seq<Field>)
    requires DistinctKeys(fs)
    ensures DistinctKeys(CanonFields(fs))
  {
    if fs != [] {
      var rest := CanonFields(fs[1..]);
      CanonFieldsDistinct(fs[1..]);
      forall i | 0 <= i < |rest| ensures rest[i].key != fs[0].key {
        CanonFieldsHolds(fs[1..], rest[i]);
      }
      InsertDistinct(Field(fs[0].key, Canonicalize(fs[0].val)), rest);
    }
  }

  lemma {:induction false} SortedUnique(a: seq<Field>, b: seq<Field>)
    requires Sorted(a) && Sorted(b) && DistinctKeys(a) && DistinctKeys(b)
    requires |a| == |b|
    requires forall f :: f in a <==> f in b
    ensures a == b
  {
    if a != [] {
      assert b[0] in a && a[0] in b;
      var i :| 0 <= i < |a| && a[i] == b[0];
      var j :| 0 <= j < |b| && b[j] == a[0];
      assert AtMost(a[0].key, b[0].key) by { if i == 0 { AtMostTotal(a[0].key, a[0].key); } }
      assert AtMost(b[0].key, a[0].key) by { if j == 0 { AtMostTotal(b[0].key, b[0].key); } }
      AtMostAntisymmetric(a[0].key, b[0].key);
      assert a[0] == b[0];
      forall f ensures f in a[1..] <==> f in b[1..] {
        assert f in a[1..] ==> f in a && f != a[0];
        assert f in b[1..] ==> f in b && f != b[0];
      }
      SortedUnique(a[1..], b[1..]);
      assert a == [a[0]] + a[1..] && b == [b[0]] + b[1..];
    }
  }

  // Two values canonicalise alike exactly when they are the same JSON value.
  lemma {:induction false} CanonicalIffSame(a: Json, b: Json)
    requires WellFormed(a) && WellFormed(b)
    ensures Canonicalize(a) == Canonicalize(b) <==> SameValue(a, b)
    decreases a
  {
    if a.Arr? && b.Arr? {
      SameItems(a.items, b.items);
    } else if a.Obj? && b.Obj? {
      if Canonicalize(a) == Canonicalize(b) {
        SameFieldsForth(a.fields, b.fields);
      }
      if SameValue(a, b) {
        SameFieldsBack(a.fields, b.fields);
      }
    }
  }

  lemma {:induction false} SameItems(vs: seq<Json>, ws: seq<Json>)
    requires WellFormed(Arr(vs)) && WellFormed(Arr(ws))
    ensures CanonItems(vs) == CanonItems(ws) <==> SameValue(Arr(vs), Arr(ws))
    decreases vs
  {
    if |vs| == |ws| {
      forall i | 0 <= i < |vs| ensures CanonItems(vs)[i] == CanonItems(ws)[i] <==> SameValue(vs[i], ws[i]) {
        CanonItemAt(vs, i);
        CanonItemAt(ws, i);
        CanonicalIffSame(vs[i], ws[i]);
      }
    }
  }

  lemma {:induction false} SameFieldsForth(fs: seq<Field>, gs: seq<Field>)
    requires WellFormed(Obj(fs)) && WellFormed(Obj(gs))
    requires CanonFields(fs) == CanonFields(gs)
    ensures SameValue(Obj(fs), Obj(gs))
    decreases fs
  {
    forall i | 0 <= i < |fs|
      ensures exists j :: 0 <= j < |gs| && fs[i].key == gs[j].key && SameValue(fs[i].val, gs[j].val)
    {
      var f := Field(fs[i].key, Canonicalize(fs[i].val));
      CanonFieldsHolds(fs, f);
      CanonFieldsHolds(gs, f);
      var j :| 0 <= j < |gs| && f == Field(gs[j].key, Canonicalize(gs[j].val));
      CanonicalIffSame(fs[i].val, gs[j].val);
    }
  }

  lemma {:induction false} SameFieldsBack(fs: seq<Field>, gs: seq<Field>)
    requires WellFormed(Obj(fs)) && WellFormed(Obj(gs))
    requires SameValue(Obj(fs), Obj(gs))
    ensures CanonFields(fs) == CanonFields(gs)
    decreases fs
  {
    forall i | 0 <= i < |fs| ensures HasKey(gs, fs[i].key) {
      var j :| 0 <= j < |gs| && fs[i].key == gs[j].key && SameValue(fs[i].val, gs[j].val);
    }
    KeysMatchBack(fs, gs);
    forall i, j | 0 <= i < |fs| && 0 <= j < |gs| && fs[i].key == gs[j].key
      ensures Canonicalize(fs[i].val) == Canonicalize(gs[j].val)
    {
      var m :| 0 <= m < |gs| && fs[i].key == gs[m].key && SameValue(fs[i].val, gs[m].val);
      assert m == j;
      CanonicalIffSame(fs[i].val, gs[j].val);
    }
    forall f ensures f in CanonFields(fs) <==> f in CanonFields(gs) {
      CanonFieldsHolds(fs, f);
      CanonFieldsHolds(gs, f);
    }
    CanonFieldsSorted(fs);
    CanonFieldsSorted(gs);
    CanonFieldsDistinct(fs);
    CanonFieldsDistinct(gs);
    SortedUnique(CanonFields(fs), CanonFields(gs));
  }

  // ---------------------------------------------------------------------
  // Sorting twice is sorting once
  // ---------------------------------------------------------------------

  lemma {:induction false} InsertFirst(f: Field, fs: seq<Field>)
    requires Sorted([f] + fs)
    ensures Insert(f, fs) == [f] + fs
  {
    if fs != [] {
      assert AtMost(([f] + fs)[0].key, ([f] + fs)[1].key);
    }
  }

  lemma {:induction false} CanonicalizeFixed(fs: seq<Field>)
    requires Sorted(fs)
    requires forall i :: 0 <= i < |fs| ==> Canonicalize(fs[i].val) == fs[i].val
    ensures CanonFields(fs) == fs
  {
    if fs != [] {
      CanonicalizeFixed(fs[1..]);
      assert fs == [fs[0]] + fs[1..];
      InsertFirst(fs[0], fs[1..]);
    }
  }

  lemma {:induction false} CanonicalizeIdempotent(v: Json)
    ensures Canonicalize(Canonicalize(v)) == Canonicalize(v)
    decreases v
  {
    match v
    case Arr(items) =>
      var c := CanonItems(items);
      forall i | 0 <= i < |c| ensures CanonItems(c)[i] == c[i] {
        CanonItemAt(items, i);
        CanonItemAt(c, i);
        CanonicalizeIdempotent(items[i]);
      }
    case Obj(fields) =>
      var c := CanonFields(fields);
      CanonFieldsSorted(fields);
      forall i | 0 <= i < |c| ensures Canonicalize(c[i].val) == c[i].val {
        CanonFieldsHolds(fields, c[i]);
        var j :| 0 <= j < |fields| && c[i] == Field(fields[j].key, Canonicalize(fields[j].val));
        CanonicalizeIdempotent(fields[j].val);
      }
      CanonicalizeFixed(c);
    case _ =>
  }

  // ---------------------------------------------------------------------
  // What the canonical form is
  // ---------------------------------------------------------------------

  // The keys of every object, at every depth, ascend strictly.
  ghost predicate Ascending(v: Json) {
    match v
    case Arr(items) => forall i :: 0 <= i < |items| ==> Ascending(items[i])
    case Obj(fields) =>
      && (forall i, j :: 0 <= i < j < |fields| ==> Below(fields[i].key, fields[j].key))
      && forall i :: 0 <= i < |fields| ==> Ascending(fields[i].val)
    case _ => true
  }

  lemma {:induction false} CanonicalAscends(v: Json)
    requires WellFormed(v)
    ensures Ascending(Canonicalize(v)) && WellFormed(Canonicalize(v))
    decreases v
  {
    match v
    case Arr(items) =>
      forall i | 0 <= i < |items| ensures Ascending(CanonItems(items)[i]) && WellFormed(CanonItems(items)[i]) {
        CanonItemAt(items, i);
        CanonicalAscends(items[i]);
      }
    case Obj(fields) =>
      var c := CanonFields(fields);
      CanonFieldsSorted(fields);
      CanonFieldsDistinct(fields);
      forall i, j | 0 <= i < j < |c| ensures Below(c[i].key, c[j].key) {
        AtMostMeans(c[i].key, c[j].key);
      }
      forall i | 0 <= i < |c| ensures Ascending(c[i].val) && WellFormed(c[i].val) {
        CanonFieldsHolds(fields, c[i]);
        var j :| 0 <= j < |fields| && c[i] == Field(fields[j].key, Canonicalize(fields[j].val));
        CanonicalAscends(fields[j].val);
      }
    case _ =>
  }

  // The canonical form is the same JSON value with its keys in ascending order,
  // and it is the only such value.
  lemma {:induction false} CanonicalExactly(v: Json, c: Json)
    requires WellFormed(v)
    ensures c == Canonicalize(v) <==> WellFormed(c) && SameValue(v, c) && Ascending(c)
  {
    CanonicalAscends(v);
    CanonicalizeIdempotent(v);
    CanonicalIffSame(v, Canonicalize(v));
    if WellFormed(c) && SameValue(v, c) && Ascending(c) {
      CanonicalIffSame(v, c);
      AscendingFixed(c);
    }
  }

  lemma {:induction false} AscendingFixed(v: Json)
    requires Ascending(v)
    ensures Canonicalize(v) == v
    decreases v
  {
    match v
    case Arr(items) =>
      forall i | 0 <= i < |items| ensures CanonItems(items)[i] == items[i] {
        CanonItemAt(items, i);
        AscendingFixed(items[i]);
      }
    case Obj(fields) =>
      forall i, j | 0 <= i < j < |fields| ensures AtMost(fields[i].key, fields[j].key) {
        AtMostMeans(fields[i].key, fields[j].key);
      }
      forall i | 0 <= i < |fields| ensures Canonicalize(fields[i].val) == fields[i].val {
        AscendingFixed(fields[i].val);
      }
      CanonicalizeFixed(fields);
    case _ =>
  }

  // Equal bytes, equal canonical form: canonical JSON is unambiguous on all values.
  lemma {:induction false} BytesDetermineForm(a: Json, b: Json)
    ensures CanonicalJson(a) == CanonicalJson(b) <==> Canonicalize(a) == Canonicalize(b)
  {
    CanonicalizeIdempotent(a);
    CanonicalizeIdempotent(b);
    if CanonicalJson(a) == CanonicalJson(b) {
      Utf8Injective(Write(Canonicalize(a), ""), Write(Canonicalize(b), ""));
      WriteInjective(Canonicalize(a), "", Canonicalize(b), "");
    }
  }

  // Equal bytes exactly for the same JSON value; reordering keys at any depth
  // changes no byte.
  lemma {:induction false} CanonicalJsonUnambiguous(a: Json, b: Json)
    requires WellFormed(a) && WellFormed(b)
    ensures CanonicalJson(a) == CanonicalJson(b) <==> SameValue(a, b)
  {
    BytesDetermineForm(a, b);
    CanonicalIffSame(a, b);
  }

  // ---------------------------------------------------------------------
  // Records: objects with a fixed list of keys
  // ---------------------------------------------------------------------

  function Record(ks: seq<string>, vs: seq<Json>): seq<Field>
    requires |ks| == |vs|
  {
    seq(|ks|, i requires 0 <= i < |ks| => Field(ks[i], vs[i]))
  }

  ghost predicate SameKeys(a: seq<Field>, b: seq<Field>) {
    |a| == |b| && forall i :: 0 <= i < |a| ==> a[i].key == b[i].key
  }

  // Where a field is inserted depends on the keys alone.
  lemma {:induction false} InsertCancels(k: string, v: Json, a: seq<Field>, w: Json, b: seq<Field>)
    requires SameKeys(a, b)
    ensures SameKeys(Insert(Field(k, v), a), Insert(Field(k, w), b))
    ensures Insert(Field(k, v), a) == Insert(Field(k, w), b) ==> v == w && a == b
  {
    if a == [] {
      assert Insert(Field(k, v), a)[0] == Field(k, v) && Insert(Field(k, w), b)[0] == Field(k, w);
    } else {
      InsertCancels(k, v, a[1..], w, b[1..]);
      var p, q := Insert(Field(k, v), a), Insert(Field(k, w), b);
      if p == q {
        assert p[0] == q[0] && p[1..] == q[1..];
        if AtMost(k, a[0].key) {
          assert p == [Field(k, v)] + a && q == [Field(k, w)] + b;
          assert p[0] == Field(k, v) && q[0] == Field(k, w);
          assert p[1..] == a && q[1..] == b;
        } else {
          assert p[1..] == Insert(Field(k, v), a[1..]) && q[1..] == Insert(Field(k, w), b[1..]);
          assert a == [a[0]] + a[1..] && b == [b[0]] + b[1..];
        }
      }
    }
  }

  lemma {:induction false} RecordFieldsInjective(ks: seq<string>, vs: seq<Json>, ws: seq<Json>)
    requires |ks| == |vs| == |ws|
    ensures SameKeys(CanonFields(Record(ks, vs)), CanonFields(Record(ks, ws)))
    ensures CanonFields(Record(ks, vs)) == CanonFields(Record(ks, ws)) ==> CanonItems(vs) == CanonItems(ws)
  {
    if ks != [] {
      RecordFieldsInjective(ks[1..], vs[1..], ws[1..]);
      var a, b := Record(ks, vs), Record(ks, ws);
      assert a[1..] == Record(ks[1..], vs[1..]) && b[1..] == Record(ks[1..], ws[1..]);
      InsertCancels(ks[0], Canonicalize(vs[0]), CanonFields(a[1..]), Canonicalize(ws[0]), CanonFields(b[1..]));
    }
  }

  // Records over one list of keys have the same form only if all their values do.
  lemma RecordInjective(ks: seq<string>, vs: seq<Json>, ws: seq<Json>)
    requires |ks| == |vs| == |ws|
    requires Canonicalize(Obj(Record(ks, vs))) == Canonicalize(Obj(Record(ks, ws)))
    ensures forall i :: 0 <= i < |ks| ==> Canonicalize(vs[i]) == Canonicalize(ws[i])
  {
    RecordFieldsInjective(ks, vs, ws);
    forall i | 0 <= i < |ks| ensures Canonicalize(vs[i]) == Canonicalize(ws[i]) {
      CanonItemAt(vs, i);
      CanonItemAt(ws, i);
    }
  }

  // No list and no dict among the values.
  predicate Leaves(vs: seq<Json>) {
    forall i :: 0 <= i < |vs| ==> !vs[i].Arr? && !vs[i].Obj?
  }

  lemma LeavesInjective(ks: seq<string>, vs: seq<Json>, ws: seq<Json>)
    requires |ks| == |vs| == |ws| && Leaves(vs) && Leaves(ws)
    requires Canonicalize(Obj(Record(ks, vs))) == Canonicalize(Obj(Record(ks, ws)))
    ensures vs == ws
  {
    RecordInjective(ks, vs, ws);
    forall i | 0 <= i < |ks| ensures vs[i] == ws[i] {
      assert Canonicalize(vs[i]) == vs[i] && Canonicalize(ws[i]) == ws[i];
    }
  }
}
