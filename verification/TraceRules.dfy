// The grammar and the limits of the trace headers, and what parsing and injecting
// make of any mapping: trace_context.py.
module TraceRules {
  import opened Wrappers
  import opened Strings
  import opened ModelRules
  import opened Tracestate
  import opened TraceContexts

  // ---------------------------------------------------------------------
  // The grammar
  // ---------------------------------------------------------------------

  // 00, the trace id, the parent id and the flags; neither id is all zeros.
  predicate Parent(v: string, traceId: string, parentId: string, flags: string) {
    && v == "00-" + traceId + "-" + parentId + "-" + flags
    && HexDigits(traceId, 32) && HexDigits(parentId, 16) && HexDigits(flags, 2)
    && (exists i :: 0 <= i < 32 && traceId[i] != '0') && (exists i :: 0 <= i < 16 && parentId[i] != '0')
  }

  lemma ParentParts(v: string) returns (t: string, q: string, f: string)
    requires TraceparentOk(v)
    ensures Parent(v, t, q, f)
  {
    t, q, f := v[3..35], v[36..52], v[53..];
    assert forall i :: 3 <= i < 55 && i != 35 && i != 52 ==> Models.IsHex(v[i]);
    hide Models.IsHex, HexDigits;
    HexDigitsAre(t);
    HexDigitsAre(q);
    HexDigitsAre(f);
    assert v == "00-" + t + "-" + q + "-" + f;
    var i :| 0 <= i < 32 && t[i] != '0';
    var j :| 0 <= j < 16 && q[j] != '0';
  }

  lemma ParentWhole(v: string, t: string, q: string, f: string)
    requires Parent(v, t, q, f)
    ensures TraceparentOk(v)
  {
    HexDigitsAre(t);
    HexDigitsAre(q);
    HexDigitsAre(f);
    hide Models.IsHex;
    assert |t| == 32 && |q| == 16 && |f| == 2;
    assert v[3..35] == t && v[36..52] == q && v[53..] == f;
    assert forall i :: 3 <= i < 35 ==> v[i] == t[i - 3];
    assert forall i :: 36 <= i < 52 ==> v[i] == q[i - 36];
    assert forall i :: 53 <= i < 55 ==> v[i] == f[i - 53];
  }

  lemma TraceparentExactly(v: string)
    ensures TraceparentOk(v) <==> exists t, q, f :: Parent(v, t, q, f)
  {
    hide TraceparentOk, Parent;
    if TraceparentOk(v) {
      var t, q, f := ParentParts(v);
    }
    if t, q, f :| Parent(v, t, q, f) {
      ParentWhole(v, t, q, f);
    }
  }

  predicate KeyChar(c: char) {
    'a' <= c <= 'z' || '0' <= c <= '9' || c == '_' || c == '*' || c == '/' || c == '-'
  }

  predicate AllKeyChars(s: string) {
    forall i :: 0 <= i < |s| ==> KeyChar(s[i])
  }

  // A vendor's key of at most 256 characters, or a tenant of at most 241 and a
  // system of at most 14 around an at sign.
  predicate PlainKey(key: string) {
    1 <= |key| <= 256 && 'a' <= key[0] <= 'z' && AllKeyChars(key)
  }

  predicate TenantKey(key: string, tenant: string, system: string) {
    && key == tenant + "@" + system
    && 1 <= |tenant| <= 241 && ('a' <= tenant[0] <= 'z' || '0' <= tenant[0] <= '9') && AllKeyChars(tenant)
    && 1 <= |system| <= 14 && 'a' <= system[0] <= 'z' && AllKeyChars(system)
  }

  // At most 256 printable characters without a comma or an equals sign, the first
  // of them no space.
  predicate PlainValue(value: string) {
    && 1 <= |value| <= 256 && value[0] != ' '
    && forall i :: 0 <= i < |value| ==> 0x20 <= value[i] as int <= 0x7E && value[i] != ',' && value[i] != '='
  }

  ghost predicate Member(m: string, key: string, value: string) {
    && m == key + "=" + value && PlainValue(value)
    && (PlainKey(key) || exists tenant, system :: TenantKey(key, tenant, system))
  }

  ghost predicate IsMember(m: string) {
    exists key, value :: Member(m, key, value)
  }

  lemma KeyCharsAre(s: string)
    ensures KeyChars(s) <==> AllKeyChars(s)
  {
  }

  lemma KeyExactly(key: string)
    ensures KeyOk(key) <==> PlainKey(key) || exists tenant, system :: TenantKey(key, tenant, system)
  {
    hide KeyChars, AllKeyChars;
    KeyCharsAre(key);
    if i :| && 1 <= i <= 241 && i < |key| && key[i] == '@' && (IsLower(key[0]) || IsDigit(key[0]))
            && KeyChars(key[..i]) && Identifier(key[i + 1..], 14)
    {
      KeyCharsAre(key[..i]);
      KeyCharsAre(key[i + 1..]);
      assert TenantKey(key, key[..i], key[i + 1..]);
    }
    if tenant, system :| TenantKey(key, tenant, system) {
      var i := |tenant|;
      assert key[..i] == tenant && key[i + 1..] == system;
      KeyCharsAre(tenant);
      KeyCharsAre(system);
    }
  }

  lemma ValueExactly(value: string)
    ensures ValueOk(value) <==> PlainValue(value)
  {
  }

  lemma KeyHasNoEquals(key: string)
    requires PlainKey(key) || exists tenant, system :: TenantKey(key, tenant, system)
    ensures forall i :: 0 <= i < |key| ==> key[i] != '='
  {
    if tenant, system :| TenantKey(key, tenant, system) {
      forall i | 0 <= i < |key| ensures key[i] != '=' {
        if i < |tenant| {
          assert key[i] == tenant[i];
        } else if i > |tenant| {
          assert key[i] == system[i - |tenant| - 1];
        }
      }
    }
  }

  // A member is a key and a value around an equals sign, and its key is that key.
  lemma MemberExactly(m: string)
    ensures MemberOk(m) <==> IsMember(m)
    ensures forall key, value :: Member(m, key, value) ==> KeyOf(m) == key
  {
    hide KeyOk, ValueOk, PlainKey, PlainValue, TenantKey, KeyLength;
    var n := KeyLength(m);
    if MemberOk(m) {
      KeyExactly(m[..n]);
      ValueExactly(m[n + 1..]);
      assert m == m[..n] + "=" + m[n + 1..];
      assert Member(m, m[..n], m[n + 1..]);
    }
    forall key, value | Member(m, key, value) ensures KeyOf(m) == key && MemberOk(m) {
      KeyExactly(key);
      ValueExactly(value);
      KeyHasNoEquals(key);
      assert m[|key|] == '=' && forall i :: 0 <= i < |key| ==> m[i] == key[i];
      assert n == |key|;
      assert m[..n] == key && m[n + 1..] == value;
    }
  }

  // At most 32 members with different keys.
  ghost predicate Members(ms: seq<string>) {
    && |ms| <= 32 && (forall i :: 0 <= i < |ms| ==> IsMember(ms[i]))
    && forall i, j :: 0 <= i < j < |ms| ==> KeyOf(ms[i]) != KeyOf(ms[j])
  }

  lemma MembersExactly(ms: seq<string>)
    ensures GoodList(ms) <==> Members(ms)
  {
    hide MemberOk, IsMember, KeyOf;
    forall i | 0 <= i < |ms| ensures MemberOk(ms[i]) <==> IsMember(ms[i]) {
      MemberExactly(ms[i]);
    }
  }

  // ---------------------------------------------------------------------
  // Normalising
  // ---------------------------------------------------------------------

  // Splitting at commas: the only way to write a text as a join of parts without one.
  lemma {:induction false} SplitExactly(s: string, parts: seq<string>)
    ensures Split(s) == parts <==> parts != [] && Join(parts) == s && forall i :: 0 <= i < |parts| ==> ',' !in parts[i]
  {
    if parts != [] && Join(parts) == s && forall i :: 0 <= i < |parts| ==> ',' !in parts[i] {
      forall i, j | 0 <= i < |parts| && 0 <= j < |parts[i]| ensures parts[i][j] != ',' {
        assert parts[i][j] in parts[i];
      }
      SplitJoin(parts);
    }
    JoinSplit(s);
    PartsHaveNoComma(s);
  }

  lemma {:induction false} PartsHaveNoComma(s: string)
    ensures forall i :: 0 <= i < |Split(s)| ==> ',' !in Split(s)[i]
  {
    if s != "" {
      PartsHaveNoComma(s[1..]);
    }
  }

  // The parts that are kept are those that are not blank, without the spaces and
  // tabs around them, in order.
  lemma {:induction false} KeptExactly(parts: seq<string>, a: string, t: string, b: string)
    requires AllOf(a, c => c == ' ' || c == '\t') && AllOf(b, c => c == ' ' || c == '\t')
    requires Trimmed(t, c => c == ' ' || c == '\t')
    ensures Kept([]) == []
    ensures Kept(parts + [a + t + b]) == Kept(parts) + (if t == "" then [] else [t])
  {
    hide StripChars;
    var last := if t == "" then [] else [t];
    if parts == [] {
      StripOf(a, t, b, IsBlank);
      assert parts + [a + t + b] == [a + t + b] && [a + t + b][1..] == [];
      assert Kept([a + t + b]) == last + Kept([]) == last;
      assert Kept(parts) + last == last;
    } else {
      KeptExactly(parts[1..], a, t, b);
      assert (parts + [a + t + b])[0] == parts[0] && (parts + [a + t + b])[1..] == parts[1..] + [a + t + b];
    }
  }

  // The whole normaliser: at most 512 characters, blank parts only where they are
  // allowed, and the others a list of members.
  lemma {:induction false} NormalizeExactly(values: seq<string>, allowEmpty: bool)
    ensures var text := Join(values);
            var kept := Kept(Split(text));
            Normalize(values, allowEmpty)
            == if |text| <= 512 && (allowEmpty || |kept| == |Split(text)|) && Members(kept)
               then Ok(if kept == [] then None else Some(Join(kept)))
               else Err(ValueError)
  {
    hide GoodList, Members, Join, Split, Kept, Normalize, NoEmpty;
    var text := Join(values);
    NormalizeOfJoin(values, allowEmpty);
    NormalizeMeans([text], allowEmpty);
    OneText(text);
    MembersExactly(Kept(Split(text)));
    KeptAll(Split(text));
  }

  lemma {:induction false} OneText(text: string)
    ensures RawMembers([text]) == Split(text) && RawLength([text]) == |text|
  {
    assert RawMembers([text]) == Split(text) + RawMembers([]) == Split(text);
  }

  lemma {:induction false} KeptAll(raws: seq<string>)
    ensures |Kept(raws)| <= |raws| && (|Kept(raws)| == |raws| <==> NoEmpty(raws))
  {
    hide StripChars, IsEmpty;
    if raws != [] {
      KeptAll(raws[1..]);
      NoEmptyFirst(raws);
    }
  }

  // Constructing a context takes a traceparent and no blank member.
  lemma ContextExactly(traceparent: string, tracestate: Option<string>, c: TraceContext)
    ensures NewTraceContext(traceparent, tracestate) == Ok(c)
            <==> && c.traceparent == traceparent && (exists t, q, f :: Parent(traceparent, t, q, f))
                 && match tracestate
                    case None => c.tracestate == None
                    case Some(text) =>
                      var kept := Kept(Split(text));
                      |text| <= 512 && |kept| == |Split(text)| && Members(kept) && c.tracestate == Some(Join(kept))
    ensures NewTraceContext(traceparent, tracestate).Err?
            ==> NewTraceContext(traceparent, tracestate) == Err(ValueError)
  {
    hide TraceparentOk, Parent, Normalize, Members, Join, Split, Kept;
    TraceparentExactly(traceparent);
    if tracestate.Some? {
      NormalizeExactly([tracestate.value], false);
      JoinOne(tracestate.value);
      assert |Split(tracestate.value)| > 0;
    }
  }

  // ---------------------------------------------------------------------
  // Header values
  // ---------------------------------------------------------------------

  // The strings of a value: one, or a sequence of nothing but strings.
  predicate Strung(v: HeaderValue) {
    v.One? || (v.Many? && forall i :: 0 <= i < |v.items| ==> v.items[i].Text?)
  }

  function StringsOf(v: HeaderValue): seq<string>
    requires Strung(v)
  {
    if v.One? then [v.text] else seq(|v.items|, i requires 0 <= i < |v.items| => v.items[i].text)
  }

  predicate AllStrung(raws: seq<HeaderValue>) {
    forall i :: 0 <= i < |raws| ==> Strung(raws[i])
  }

  function AllStrings(raws: seq<HeaderValue>): seq<string>
    requires AllStrung(raws)
  {
    if raws == [] then [] else StringsOf(raws[0]) + AllStrings(raws[1..])
  }

  lemma ReadExactly(v: HeaderValue, maximum: nat)
    requires maximum >= 1
    ensures HeaderValues(v, maximum)
            == if Strung(v) && |StringsOf(v)| <= maximum then Ok(StringsOf(v)) else Err(ValueError)
  {
    if Strung(v) && v.Many? {
      assert Texts(v.items) == StringsOf(v);
    }
  }

  predicate Short(ss: seq<string>) {
    forall i :: 0 <= i < |ss| ==> |ss[i]| <= 512
  }

  lemma ShortConcat(a: seq<string>, b: seq<string>)
    ensures Short(a + b) <==> Short(a) && Short(b)
  {
    if Short(a + b) {
      assert forall i :: 0 <= i < |a| ==> (a + b)[i] == a[i];
      assert forall i :: 0 <= i < |b| ==> (a + b)[|a| + i] == b[i];
    }
  }

  // At most 32 strings of at most 512 characters, and fewer than 32 before the last field.
  predicate Collectable(before: nat, raws: seq<HeaderValue>) {
    && AllStrung(raws)
    && (raws != [] ==> before + |AllStrings(raws)| <= 32 && before + |AllStrings(raws[..|raws| - 1])| < 32)
    && Short(AllStrings(raws))
  }

  lemma {:induction false} CollectFirst(collected: seq<string>, raws: seq<HeaderValue>)
    requires raws != [] && Strung(raws[0]) && |collected| < 32
    ensures var more := collected + StringsOf(raws[0]);
            && (Collectable(|collected|, raws)
                <==> && |more| <= 32 && Short(StringsOf(raws[0])) && Collectable(|more|, raws[1..]))
            && (AllStrung(raws[1..])
                ==> AllStrung(raws) && more + AllStrings(raws[1..]) == collected + AllStrings(raws))
  {
    hide StringsOf, Strung, Short;
    if AllStrung(raws[1..]) {
      var first, rest := StringsOf(raws[0]), AllStrings(raws[1..]);
      assert AllStrung(raws) && AllStrings(raws) == first + rest;
      ShortConcat(first, rest);
      if |raws| > 1 {
        assert raws[..|raws| - 1][1..] == raws[1..][..|raws| - 2];
        assert |AllStrings(raws[..|raws| - 1])| == |first| + |AllStrings(raws[1..][..|raws| - 2])|;
      }
    }
  }

  lemma {:induction false} CollectExactly(collected: seq<string>, raws: seq<HeaderValue>)
    ensures CollectTracestate(collected, raws)
            == if Collectable(|collected|, raws) then Ok(collected + AllStrings(raws)) else Err(ValueError)
    decreases raws
  {
    hide StringsOf, Strung;
    if raws == [] {
      assert collected + AllStrings(raws) == collected;
    } else if |collected| < 32 {
      ReadExactly(raws[0], 32 - |collected|);
      if Strung(raws[0]) {
        var more := collected + StringsOf(raws[0]);
        CollectExactly(more, raws[1..]);
        CollectFirst(collected, raws);
      }
    } else if AllStrung(raws) {
      assert |collected| + |AllStrings(raws[..|raws| - 1])| >= 32;
    }
  }

  // What a received tracestate counts as: the normal form of all its values joined,
  // or nothing if there is anything wrong with it or nothing in it.
  lemma {:induction false} ReceivedExactly(raws: seq<HeaderValue>)
    ensures TracestateOf(raws)
            == if !Collectable(0, raws) then None
               else
                 var text := Join(AllStrings(raws));
                 var kept := Kept(Split(text));
                 if |text| <= 512 && Members(kept) && kept != [] then Some(Join(kept)) else None
  {
    hide Strung, CollectTracestate, AllStrings, Normalize, Members, Join, Split, Kept;
    CollectExactly([], raws);
    if Collectable(0, raws) {
      assert [] + AllStrings(raws) == AllStrings(raws);
      NormalizeExactly(AllStrings(raws), true);
    }
  }

  // ---------------------------------------------------------------------
  // Parsing and injecting
  // ---------------------------------------------------------------------

  predicate NamedAt(hs: seq<HttpField>, i: int, name: string) {
    0 <= i < |hs| && hs[i].name.Name? && Lower(hs[i].name.text) == name
  }

  // Fields with a name, whatever its case, one after the other.
  lemma {:induction false} ValuesExactly(hs: seq<HttpField>, h: HttpField, name: string)
    ensures ValuesOf([], name) == []
    ensures ValuesOf(hs + [h], name)
            == ValuesOf(hs, name) + (if h.name.Name? && Lower(h.name.text) == name then [h.value] else [])
  {
    hide Lower;
    ValuesOfAppend(hs, h, name);
  }

  // The fields after the first one.
  lemma NamedLater(hs: seq<HttpField>, name: string)
    requires hs != []
    ensures forall i :: NamedAt(hs, i, name) && i > 0 ==> NamedAt(hs[1..], i - 1, name)
    ensures forall i :: NamedAt(hs[1..], i, name) ==> i >= 0 && NamedAt(hs, i + 1, name)
    ensures Named(hs[0], name) <==> NamedAt(hs, 0, name)
  {
    hide Lower;
  }

  lemma {:induction false} NoneNamed(hs: seq<HttpField>, name: string)
    ensures ValuesOf(hs, name) == [] <==> forall i :: !NamedAt(hs, i, name)
  {
    hide NamedAt, Named;
    if hs != [] {
      NoneNamed(hs[1..], name);
      NamedLater(hs, name);
      forall i | NamedAt(hs, i, name) ensures i >= 0 {
        NamedBounds(hs, i, name);
      }
    } else {
      forall i | NamedAt(hs, i, name) ensures false {
        NamedBounds(hs, i, name);
      }
    }
  }

  lemma NamedBounds(hs: seq<HttpField>, i: int, name: string)
    requires NamedAt(hs, i, name)
    ensures 0 <= i < |hs|
  {
  }

  // The only field with a name.
  ghost predicate OnlyAt(hs: seq<HttpField>, i: int, name: string) {
    NamedAt(hs, i, name) && forall j :: NamedAt(hs, j, name) ==> j == i
  }

  lemma FirstNamed(hs: seq<HttpField>, name: string)
    requires NamedAt(hs, 0, name)
    ensures forall i :: OnlyAt(hs, i, name) ==> i == 0
    ensures OnlyAt(hs, 0, name) <==> forall i :: !NamedAt(hs[1..], i, name)
  {
    hide Lower;
    NamedLater(hs, name);
  }

  lemma LaterOnly(hs: seq<HttpField>, i: int, name: string)
    requires hs != [] && !NamedAt(hs, 0, name) && i > 0
    ensures OnlyAt(hs, i, name) <==> OnlyAt(hs[1..], i - 1, name)
    ensures i < |hs| ==> hs[i] == hs[1..][i - 1]
  {
    hide Lower;
    NamedLater(hs, name);
  }

  lemma {:induction false} OneNamed(hs: seq<HttpField>, name: string, v: HeaderValue)
    ensures ValuesOf(hs, name) == [v] <==> exists i :: OnlyAt(hs, i, name) && hs[i].value == v
  {
    hide Lower;
    if hs != [] {
      OneNamed(hs[1..], name, v);
      NoneNamed(hs[1..], name);
      NamedLater(hs, name);
      if Named(hs[0], name) {
        FirstNamed(hs, name);
        assert ValuesOf(hs, name) == [hs[0].value] + ValuesOf(hs[1..], name);
      } else {
        assert ValuesOf(hs, name) == ValuesOf(hs[1..], name);
        if i :| OnlyAt(hs[1..], i, name) && hs[1..][i].value == v {
          LaterOnly(hs, i + 1, name);
        }
        if i :| OnlyAt(hs, i, name) && hs[i].value == v {
          LaterOnly(hs, i, name);
        }
      }
    }
  }

  // A value that holds one string.
  predicate Holds(v: HeaderValue, text: string) {
    v == One(text) || v == Many([Text(text)])
  }

  // Parsing finds nothing in fewer than 64 fields without either header, finds a
  // context where one field is a well-formed traceparent, and fails otherwise.
  lemma {:induction false} ParseExactly(hs: seq<HttpField>, c: TraceContext)
    ensures Parse(hs) == Ok(None)
            <==> && |hs| < 64 && AllNamed(hs)
                 && forall i :: !NamedAt(hs, i, "traceparent") && !NamedAt(hs, i, "tracestate")
    ensures Parse(hs) == Ok(Some(c))
            <==> && |hs| < 64 && AllNamed(hs)
                 && (exists i :: OnlyAt(hs, i, "traceparent") && Holds(hs[i].value, c.traceparent))
                 && (exists t, q, f :: Parent(c.traceparent, t, q, f))
                 && c.tracestate == TracestateOf(ValuesOf(hs, "tracestate"))
    ensures Parse(hs).Err? ==> Parse(hs) == Err(ValueError)
  {
    hide Lower, ValuesOf, TraceparentOk, Parent, OnlyAt, NamedAt, TracestateOf, AllNamed, NewTraceContext;
    NoneNamed(hs, "traceparent");
    NoneNamed(hs, "tracestate");
    OneNamed(hs, "traceparent", One(c.traceparent));
    OneNamed(hs, "traceparent", Many([Text(c.traceparent)]));
    TraceparentExactly(c.traceparent);
    var parents := ValuesOf(hs, "traceparent");
    if |hs| < 64 && AllNamed(hs) && |parents| == 1 {
      assert parents == [parents[0]];
      HoldsExactly(parents[0], c.traceparent);
      var read := HeaderValues(parents[0], 1);
      if read.Ok? && |read.value| == 1 && TraceparentOk(read.value[0]) {
        assert read.value == [read.value[0]];
        TracestateNeverFails(hs, read.value[0]);
      }
    }
  }

  lemma HoldsExactly(v: HeaderValue, text: string)
    ensures HeaderValues(v, 1) == Ok([text]) <==> Holds(v, text)
    ensures HeaderValues(v, 1).Err? ==> HeaderValues(v, 1) == Err(ValueError)
  {
    if v.Many? && |v.items| == 1 && v.items[0].Text? {
      assert v.items == [Text(v.items[0].text)];
      assert Texts(v.items) == [v.items[0].text];
    }
    if v == Many([Text(text)]) {
      assert v.items[0].Text?;
    }
  }

  // Injecting drops the fields with these three names, keeps every other one in
  // order, and puts the context at the end.
  lemma {:induction false} InjectExactly(hs: seq<HttpField>, h: HttpField, c: TraceContext)
    ensures WithoutContext([]) == []
    ensures WithoutContext(hs + [h])
            == WithoutContext(hs) + (if h.name.Name? && (Lower(h.name.text) == "traceparent"
                                                         || Lower(h.name.text) == "tracestate"
                                                         || Lower(h.name.text) == "baggage") then [] else [h])
    ensures Inject(hs, c).Ok? <==> |hs| < 64 && AllNamed(hs) && NewTraceContext(c.traceparent, c.tracestate).Ok?
    ensures Inject(hs, c).Ok? ==>
      var valid := NewTraceContext(c.traceparent, c.tracestate).value;
      var parent := HttpField(Name("traceparent"), One(valid.traceparent));
      && Inject(hs, c).value == WithoutContext(hs) + [parent]
                                + match valid.tracestate
                                  case None => []
                                  case Some(state) => [HttpField(Name("tracestate"), One(state))]
  {
    hide Lower, WithoutContext, NewTraceContext;
    WithoutContextAppend(hs, h);
    NothingWithout();
  }

  lemma NothingWithout()
    ensures WithoutContext([]) == []
  {
  }
}
