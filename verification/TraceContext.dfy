// trace_context.py: parsing and injecting W3C trace headers.
module TraceContexts {
  import opened Wrappers
  import opened Strings
  import Models
  import opened Tracestate

  const MAX_FIELDS := 64
  const MAX_TRACESTATE_VALUES := 32

  datatype TraceContext = TraceContext(traceparent: string, tracestate: Option<string>)

  // A key of a header mapping: a string, or some other object.
  datatype HeaderName = Name(text: string) | OtherName(token: int)

  // A value: a string, a sequence of objects, or something that is neither.
  datatype Item = Text(text: string) | OtherItem(token: int)
  datatype HeaderValue = One(text: string) | Many(items: seq<Item>) | Opaque(token: int)

  // The fields of a mapping in iteration order. Its names are distinct.
  datatype HttpField = HttpField(name: HeaderName, value: HeaderValue)

  // ---------------------------------------------------------------------
  // _validate_traceparent
  // ---------------------------------------------------------------------

  // 00-[0-9a-f]{32}-[0-9a-f]{16}-[0-9a-f]{2}
  predicate TraceparentShape(v: string) {
    && |v| == 55 && v[..3] == "00-" && v[35] == '-' && v[52] == '-'
    && forall i :: 3 <= i < 55 && i != 35 && i != 52 ==> Models.IsHex(v[i])
  }

  predicate AllZero(s: string) {
    forall i :: 0 <= i < |s| ==> s[i] == '0'
  }

  predicate TraceparentOk(v: string) {
    TraceparentShape(v) && !AllZero(v[3..35]) && !AllZero(v[36..52])
  }

  // TraceContext(...): runs __post_init__
  function NewTraceContext(traceparent: string, tracestate: Option<string>): Result<TraceContext> {
    if !TraceparentOk(traceparent) then Err(ValueError)
    else if tracestate.None? then Ok(TraceContext(traceparent, None))
    else
      var normal :- Normalize([tracestate.value], false);
      Ok(TraceContext(traceparent, normal))
  }

  // ---------------------------------------------------------------------
  // The loops of the normaliser
  // ---------------------------------------------------------------------

  lemma {:induction false} LengthBelow(values: seq<string>, n: nat)
    requires n <= |values|
    ensures Summed(values, n) + (if |values| > 0 then |values| - 1 else 0) <= RawLength(values)
    ensures n == |values| ==> Summed(values, n) + (if |values| > 0 then |values| - 1 else 0) == RawLength(values)
    decreases |values|
  {
    if |values| > 1 {
      if n == 0 {
        LengthBelow(values[1..], 0);
      } else {
        LengthBelow(values[1..], n - 1);
        SummedFirst(values, n);
      }
    } else if |values| == 1 && n == 1 {
      assert Summed(values, 1) == Summed(values, 0) + |values[0]|;
    }
  }

  // The summed lengths of the first `n` values.
  function Summed(values: seq<string>, n: nat): nat
    requires n <= |values|
  {
    if n == 0 then 0 else Summed(values, n - 1) + |values[n - 1]|
  }

  lemma {:induction false} SummedFirst(values: seq<string>, n: nat)
    requires 0 < n <= |values|
    ensures Summed(values, n) == |values[0]| + Summed(values[1..], n - 1)
  {
    if n > 1 {
      SummedFirst(values, n - 1);
    }
  }

  // One iteration of the scan: what is left to do after raw member `raws[0]`.
  lemma {:induction false} ScanOne(members: seq<string>, raws: seq<string>, allowEmpty: bool)
    requires raws != []
    ensures var step := Step(members, raws[0], allowEmpty);
            Scan(members, raws, allowEmpty)
            == if step.Err? then Err(step.error) else Scan(step.value, raws[1..], allowEmpty)
  {
  }

  method NormalizeTracestate(values: seq<string>, allowEmpty: bool) returns (r: Result<Option<string>>)
    ensures r == Normalize(values, allowEmpty)
  {
    hide MemberOk, Step, Scan, Join, RawMembers;
    var rawLength := if |values| > 0 then |values| - 1 else 0;
    for i := 0 to |values|
      invariant rawLength == Summed(values, i) + (if |values| > 0 then |values| - 1 else 0)
      invariant i > 0 ==> rawLength <= MAX_LENGTH
    {
      LengthBelow(values, i + 1);
      if |values[i]| > MAX_LENGTH { return Err(ValueError); }
      rawLength := rawLength + |values[i]|;
      if rawLength > MAX_LENGTH { return Err(ValueError); }
    }
    LengthBelow(values, |values|);

    var members: seq<string> := [];
    var seen: set<string> := {};
    ghost var goal := Scan([], RawMembers(values), allowEmpty);
    assert values[0..] == values;
    for i := 0 to |values|
      invariant SeenKeys(members, seen)
      invariant goal == Scan(members, RawMembers(values[i..]), allowEmpty)
    {
      var raws := Split(values[i]);
      ghost var later := RawMembers(values[i + 1..]);
      assert goal == Scan(members, raws[0..] + later, allowEmpty) by {
        RawFirst(values, i);
        assert raws[0..] == raws;
      }
      for j := 0 to |raws|
        invariant SeenKeys(members, seen)
        invariant goal == Scan(members, raws[j..] + later, allowEmpty)
      {
        var member := StripChars(raws[j], IsBlank);
        ghost var left := raws[j..] + later;
        assert left[0] == raws[j] && left[1..] == raws[j + 1..] + later;
        ScanOne(members, left, allowEmpty);
        StepSeen(members, seen, raws[j], allowEmpty);
        if member == "" {
          if !allowEmpty { return Err(ValueError); }
        } else {
          if !MemberOk(member) || KeyOf(member) in seen { return Err(ValueError); }
          seen := seen + {KeyOf(member)};
          members := members + [member];
          if |members| > MAX_MEMBERS { return Err(ValueError); }
        }
      }
      assert raws[|raws|..] + later == later;
    }
    ScanDone(members, values[|values|..], allowEmpty);
    if members == [] {
      return if allowEmpty then Ok(None) else Err(ValueError);
    }
    var normalized := Join(members);
    if |normalized| > MAX_LENGTH { return Err(ValueError); }
    return Ok(Some(normalized));
  }

  ghost predicate SeenKeys(members: seq<string>, seen: set<string>) {
    forall key :: key in seen <==> key in Keys(members)
  }

  lemma RawFirst(values: seq<string>, i: nat)
    requires i < |values|
    ensures RawMembers(values[i..]) == Split(values[i]) + RawMembers(values[i + 1..])
  {
    assert values[i..][1..] == values[i + 1..];
  }

  lemma {:induction false} ScanDone(members: seq<string>, values: seq<string>, allowEmpty: bool)
    requires values == []
    ensures Scan(members, RawMembers(values), allowEmpty) == Ok(members)
  {
  }

  // The set of seen keys answers the question the specification asks of the list.
  lemma StepSeen(members: seq<string>, seen: set<string>, raw: string, allowEmpty: bool)
    requires SeenKeys(members, seen)
    ensures var member := StripChars(raw, IsBlank);
            && Step(members, raw, allowEmpty)
               == (if member == "" then if allowEmpty then Ok(members) else Err(ValueError)
                   else if !MemberOk(member) || KeyOf(member) in seen || |members| >= MAX_MEMBERS then Err(ValueError)
                   else Ok(members + [member]))
            && SeenKeys(members + [member], seen + {KeyOf(member)})
  {
    hide MemberOk, KeyOf, StripChars;
    var member := StripChars(raw, IsBlank);
    var more := members + [member];
    forall key ensures key in seen + {KeyOf(member)} <==> key in Keys(more) {
      assert Keys(more) == Keys(members) + [KeyOf(member)];
    }
  }

  // ---------------------------------------------------------------------
  // Reading header values
  // ---------------------------------------------------------------------

  predicate AllText(items: seq<Item>) {
    forall i :: 0 <= i < |items| ==> items[i].Text?
  }

  function Texts(items: seq<Item>): seq<string> {
    seq(|items|, i requires 0 <= i < |items| => if items[i].Text? then items[i].text else "")
  }

  // _header_values
  function HeaderValues(value: HeaderValue, maximum: nat): Result<seq<string>> {
    match value
    case One(text) => Ok([text])
    case Opaque(_) => Err(ValueError)
    case Many(items) => if |items| > maximum || !AllText(items) then Err(ValueError) else Ok(Texts(items))
  }

  method ReadHeaderValues(value: HeaderValue, maximum: nat) returns (r: Result<seq<string>>)
    ensures r == HeaderValues(value, maximum)
  {
    if value.One? { return Ok([value.text]); }
    if value.Opaque? { return Err(ValueError); }
    if |value.items| > maximum { return Err(ValueError); }
    var values: seq<string> := [];
    for i := 0 to |value.items|
      invariant AllText(value.items[..i]) && values == Texts(value.items[..i])
    {
      var item := value.items[i];
      if item.OtherItem? { return Err(ValueError); }
      values := values + [item.text];
      assert value.items[..i + 1] == value.items[..i] + [item];
    }
    assert value.items[..|value.items|] == value.items;
    return Ok(values);
  }

  predicate AllShort(values: seq<string>) {
    forall i :: 0 <= i < |values| ==> |values[i]| <= MAX_LENGTH
  }

  // _tracestate_header_values, given the values collected so far
  function CollectTracestate(collected: seq<string>, raws: seq<HeaderValue>): Result<seq<string>>
    decreases raws
  {
    if raws == [] then Ok(collected)
    else if |collected| >= MAX_TRACESTATE_VALUES then Err(ValueError)
    else
      var values :- HeaderValues(raws[0], MAX_TRACESTATE_VALUES - |collected|);
      if !AllShort(values) then Err(ValueError) else CollectTracestate(collected + values, raws[1..])
  }

  method CollectTracestateValues(raws: seq<HeaderValue>) returns (r: Result<seq<string>>)
    ensures r == CollectTracestate([], raws)
  {
    var values: seq<string> := [];
    for i := 0 to |raws|
      invariant CollectTracestate([], raws) == CollectTracestate(values, raws[i..])
    {
      assert raws[i..][1..] == raws[i + 1..];
      if |values| >= MAX_TRACESTATE_VALUES { return Err(ValueError); }
      var read := ReadHeaderValues(raws[i], MAX_TRACESTATE_VALUES - |values|);
      if read.Err? { return Err(ValueError); }
      ghost var before := values;
      for j := 0 to |read.value|
        invariant values == before + read.value[..j]
        invariant AllShort(read.value[..j])
      {
        var value := read.value[j];
        if |value| > MAX_LENGTH { return Err(ValueError); }
        values := values + [value];
        assert read.value[..j + 1] == read.value[..j] + [value];
      }
      assert read.value[..|read.value|] == read.value;
    }
    assert raws[|raws|..] == [];
    return Ok(values);
  }

  // ---------------------------------------------------------------------
  // parse_trace_context
  // ---------------------------------------------------------------------

  predicate Named(h: HttpField, name: string) {
    h.name.Name? && Lower(h.name.text) == name
  }

  predicate AllNamed(hs: seq<HttpField>) {
    forall i :: 0 <= i < |hs| ==> hs[i].name.Name?
  }

  // The values of the fields with this name, whatever its case.
  function ValuesOf(hs: seq<HttpField>, name: string): seq<HeaderValue> {
    if hs == [] then []
    else (if Named(hs[0], name) then [hs[0].value] else []) + ValuesOf(hs[1..], name)
  }

  // A malformed tracestate counts as none.
  function TracestateOf(raws: seq<HeaderValue>): Option<string> {
    match CollectTracestate([], raws)
    case Err(_) => None
    case Ok(values) =>
      match Normalize(values, true)
      case Err(_) => None
      case Ok(normal) => normal
  }

  function Parse(hs: seq<HttpField>): Result<Option<TraceContext>> {
    if |hs| >= MAX_FIELDS || !AllNamed(hs) then Err(ValueError)
    else
      var parents, states := ValuesOf(hs, "traceparent"), ValuesOf(hs, "tracestate");
      if parents == [] then if states == [] then Ok(None) else Err(ValueError)
      else if |parents| > 1 then Err(ValueError)
      else
        var values :- HeaderValues(parents[0], 1);
        if |values| != 1 || !TraceparentOk(values[0]) then Err(ValueError)
        else
          var context :- NewTraceContext(values[0], if states == [] then None else TracestateOf(states));
          Ok(Some(context))
  }

  lemma Regrouped<T>(a: seq<T>, b: seq<T>, c: seq<T>)
    ensures a + (b + c) == (a + b) + c && [] + c == c && c + [] == c
  {
  }

  lemma {:induction false} ValuesOfAppend(hs: seq<HttpField>, h: HttpField, name: string)
    ensures ValuesOf(hs + [h], name) == ValuesOf(hs, name) + (if Named(h, name) then [h.value] else [])
  {
    hide Named;
    var last := if Named(h, name) then [h.value] else [];
    if hs == [] {
      assert hs + [h] == [h] && [h][1..] == [];
      Regrouped([], [], last);
    } else {
      var first := if Named(hs[0], name) then [hs[0].value] else [];
      assert (hs + [h])[0] == hs[0] && (hs + [h])[1..] == hs[1..] + [h];
      ValuesOfAppend(hs[1..], h, name);
      Regrouped(first, ValuesOf(hs[1..], name), last);
    }
  }

  lemma {:induction false} ValuesOfPrefix(hs: seq<HttpField>, n: nat, name: string)
    requires n <= |hs|
    ensures |ValuesOf(hs[..n], name)| <= |ValuesOf(hs, name)|
    ensures ValuesOf(hs[..n], name) <= ValuesOf(hs, name)
    decreases |hs| - n
  {
    if n == |hs| {
      assert hs[..n] == hs;
    } else {
      assert hs[..n + 1] == hs[..n] + [hs[n]];
      ValuesOfAppend(hs[..n], hs[n], name);
      ValuesOfPrefix(hs, n + 1, name);
    }
  }

  // The loop over the fields stops after 64, and only a mapping with fewer gets
  // past it.
  method ParseTraceContext(hs: seq<HttpField>) returns (r: Result<Option<TraceContext>>)
    ensures r == Parse(hs)
  {
    hide Lower, HeaderValues, CollectTracestate, Normalize, TraceparentOk, ValuesOf;
    NoValues(hs[..0]);
    var parentValues: seq<string> := [];
    var states: seq<HeaderValue> := [];
    var parents := 0;
    var i := 0;
    while i < MAX_FIELDS && i < |hs|
      invariant 0 <= i <= |hs| && i <= MAX_FIELDS
      invariant AllNamed(hs[..i])
      invariant parents == |ValuesOf(hs[..i], "traceparent")| <= 1
      invariant states == ValuesOf(hs[..i], "tracestate")
      invariant parents == 0 ==> parentValues == []
      invariant parents == 1 ==> HeaderValues(ValuesOf(hs[..i], "traceparent")[0], 1) == Ok(parentValues)
    {
      var h := hs[i];
      if h.name.OtherName? { return Err(ValueError); }
      assert hs[..i + 1] == hs[..i] + [h];
      ValuesOfAppend(hs[..i], h, "traceparent");
      ValuesOfAppend(hs[..i], h, "tracestate");
      ValuesOfPrefix(hs, i + 1, "traceparent");
      var name := Lower(h.name.text);
      if name == "traceparent" {
        parents := parents + 1;
        if parents > 1 { return Err(ValueError); }
        var read := ReadHeaderValues(h.value, 1);
        if read.Err? {
          NotParsed(hs, h.value);
          return Err(ValueError);
        }
        parentValues := read.value;
      } else if name == "tracestate" {
        states := states + [h.value];
      }
      i := i + 1;
    }
    if i == MAX_FIELDS { return Err(ValueError); }
    assert hs[..i] == hs;
    if parents == 0 {
      return if states == [] then Ok(None) else Err(ValueError);
    }
    if |parentValues| != 1 || !TraceparentOk(parentValues[0]) { return Err(ValueError); }
    var tracestate: Option<string> := None;
    if states != [] {
      var collected := CollectTracestateValues(states);
      if collected.Ok? {
        var normal := NormalizeTracestate(collected.value, true);
        if normal.Ok? { tracestate := normal.value; }
      }
    }
    var context := NewTraceContext(parentValues[0], tracestate);
    return if context.Err? then Err(context.error) else Ok(Some(context.value));
  }

  lemma {:induction false} NoValues(hs: seq<HttpField>)
    requires hs == []
    ensures ValuesOf(hs, "traceparent") == [] && ValuesOf(hs, "tracestate") == []
  {
  }

  lemma {:induction false} NotParsed(hs: seq<HttpField>, value: HeaderValue)
    requires ValuesOf(hs, "traceparent") != [] && ValuesOf(hs, "traceparent")[0] == value
    requires HeaderValues(value, 1).Err?
    ensures Parse(hs) == Err(ValueError)
  {
    hide Lower, TraceparentOk;
  }

  // ---------------------------------------------------------------------
  // inject_trace_context
  // ---------------------------------------------------------------------

  predicate ContextName(name: string) {
    name in {"traceparent", "tracestate", "baggage"}
  }

  predicate IsContext(h: HttpField) {
    h.name.Name? && ContextName(Lower(h.name.text))
  }

  function WithoutContext(hs: seq<HttpField>): seq<HttpField> {
    if hs == [] then [] else (if IsContext(hs[0]) then [] else [hs[0]]) + WithoutContext(hs[1..])
  }

  function ContextFields(c: TraceContext): seq<HttpField> {
    [HttpField(Name("traceparent"), One(c.traceparent))]
    + (if c.tracestate.Some? then [HttpField(Name("tracestate"), One(c.tracestate.value))] else [])
  }

  function Inject(hs: seq<HttpField>, c: TraceContext): Result<seq<HttpField>> {
    var valid :- NewTraceContext(c.traceparent, c.tracestate);
    if |hs| >= MAX_FIELDS || !AllNamed(hs) then Err(ValueError)
    else Ok(WithoutContext(hs) + ContextFields(valid))
  }

  lemma {:induction false} WithoutContextAppend(hs: seq<HttpField>, h: HttpField)
    ensures WithoutContext(hs + [h])
            == WithoutContext(hs) + (if IsContext(h) then [] else [h])
  {
    hide IsContext;
    var last := if IsContext(h) then [] else [h];
    if hs == [] {
      assert hs + [h] == [h] && [h][1..] == [];
      Regrouped([], [], last);
    } else {
      var first := if IsContext(hs[0]) then [] else [hs[0]];
      assert (hs + [h])[0] == hs[0] && (hs + [h])[1..] == hs[1..] + [h];
      WithoutContextAppend(hs[1..], h);
      Regrouped(first, WithoutContext(hs[1..]), last);
    }
  }

  method InjectTraceContext(hs: seq<HttpField>, c: TraceContext) returns (r: Result<seq<HttpField>>)
    ensures r == Inject(hs, c)
  {
    hide Lower, Normalize, TraceparentOk, ContextName;
    var valid := NewTraceContext(c.traceparent, c.tracestate);
    if valid.Err? { return Err(valid.error); }
    var injected: seq<HttpField> := [];
    var i := 0;
    while i < MAX_FIELDS && i < |hs|
      invariant 0 <= i <= |hs| && i <= MAX_FIELDS
      invariant AllNamed(hs[..i]) && injected == WithoutContext(hs[..i])
    {
      var h := hs[i];
      if h.name.OtherName? { return Err(ValueError); }
      assert hs[..i + 1] == hs[..i] + [h];
      WithoutContextAppend(hs[..i], h);
      if !ContextName(Lower(h.name.text)) {
        injected := injected + [h];
      }
      i := i + 1;
    }
    if i == MAX_FIELDS { return Err(ValueError); }
    assert hs[..i] == hs;
    injected := injected + [HttpField(Name("traceparent"), One(valid.value.traceparent))];
    if valid.value.tracestate.Some? {
      injected := injected + [HttpField(Name("tracestate"), One(valid.value.tracestate.value))];
    }
    assert injected == WithoutContext(hs) + ContextFields(valid.value);
    return Ok(injected);
  }

  // ---------------------------------------------------------------------
  // Properties
  // ---------------------------------------------------------------------

  // A context that a constructor can have returned.
  predicate ValidContext(c: TraceContext) {
    TraceparentOk(c.traceparent) && (c.tracestate.Some? ==> Normal(c.tracestate.value))
  }

  // The constructor returns what it is given exactly on valid contexts.
  lemma ContextFixed(c: TraceContext)
    ensures NewTraceContext(c.traceparent, c.tracestate) == Ok(c) <==> ValidContext(c)
  {
    hide Normalize, Normal, TraceparentOk;
    if c.tracestate.Some? {
      NormalExactly(c.tracestate.value, false);
    }
  }

  lemma ContextsAreValid(traceparent: string, tracestate: Option<string>)
    requires NewTraceContext(traceparent, tracestate).Ok?
    ensures ValidContext(NewTraceContext(traceparent, tracestate).value)
  {
    hide Normalize, Normal, TraceparentOk;
    if tracestate.Some? && Normalize([tracestate.value], false).value.Some? {
      NormalizeYieldsNormal([tracestate.value], false);
    }
  }

  // With fewer than 64 fields and exactly one well-formed traceparent, given as a
  // string or as a sequence of one string, nothing a tracestate holds makes
  // parsing fail: the context carries none, or the normal form of what was received.
  lemma {:induction false} TracestateNeverFails(hs: seq<HttpField>, traceparent: string)
    requires |hs| < 64 && AllNamed(hs)
    requires |ValuesOf(hs, "traceparent")| == 1 && HeaderValues(ValuesOf(hs, "traceparent")[0], 1) == Ok([traceparent])
    requires TraceparentOk(traceparent)
    ensures Parse(hs) == Ok(Some(TraceContext(traceparent, TracestateOf(ValuesOf(hs, "tracestate")))))
    ensures ValidContext(TraceContext(traceparent, TracestateOf(ValuesOf(hs, "tracestate"))))
  {
    hide Normalize, Normal, TraceparentOk, CollectTracestate;
    var states := ValuesOf(hs, "tracestate");
    TracestateNormal(states);
    if states == [] {
      NoTracestate(states);
    }
    ContextFixed(TraceContext(traceparent, TracestateOf(states)));
  }

  lemma NoTracestate(states: seq<HeaderValue>)
    requires states == []
    ensures TracestateOf(states) == None
  {
  }

  lemma TracestateNormal(raws: seq<HeaderValue>)
    ensures TracestateOf(raws).Some? ==> Normal(TracestateOf(raws).value)
  {
    hide Normalize, Normal, CollectTracestate;
    if TracestateOf(raws).Some? {
      NormalizeYieldsNormal(CollectTracestate([], raws).value, true);
    }
  }

  lemma {:induction false} NoContextLeft(hs: seq<HttpField>, name: string)
    requires ContextName(name)
    ensures ValuesOf(WithoutContext(hs), name) == []
  {
    hide Lower, ContextName;
    if hs != [] {
      NoContextLeft(hs[1..], name);
      var kept := WithoutContext(hs);
      if !IsContext(hs[0]) {
        assert kept[1..] == WithoutContext(hs[1..]);
      } else {
        assert kept == WithoutContext(hs[1..]);
      }
    }
  }

  lemma {:induction false} StillNamed(hs: seq<HttpField>)
    requires AllNamed(hs)
    ensures AllNamed(WithoutContext(hs)) && |WithoutContext(hs)| <= |hs|
  {
    hide IsContext;
    if hs != [] {
      StillNamed(hs[1..]);
    }
  }

  lemma NamesAreLower()
    ensures Lower("traceparent") == "traceparent" && Lower("tracestate") == "tracestate"
    ensures "traceparent" != "tracestate"
  {
    assert "traceparent"[5] != "tracestate"[5];
  }

  // The fields an injection adds, and no others, are found again.
  lemma {:induction false} InjectedFields(hs: seq<HttpField>, c: TraceContext)
    ensures ValuesOf(WithoutContext(hs) + ContextFields(c), "traceparent") == [One(c.traceparent)]
    ensures ValuesOf(WithoutContext(hs) + ContextFields(c), "tracestate")
            == if c.tracestate.Some? then [One(c.tracestate.value)] else []
    ensures ValuesOf(WithoutContext(hs) + ContextFields(c), "baggage") == []
  {
    hide Lower, ValuesOf, WithoutContext;
    NamesAreLower();
    assert "baggage"[0] != "traceparent"[0] && "baggage"[0] != "tracestate"[0];
    var base := WithoutContext(hs);
    var parent := HttpField(Name("traceparent"), One(c.traceparent));
    NoContextLeft(hs, "traceparent");
    NoContextLeft(hs, "tracestate");
    NoContextLeft(hs, "baggage");
    ValuesOfAppend(base, parent, "traceparent");
    ValuesOfAppend(base, parent, "tracestate");
    ValuesOfAppend(base, parent, "baggage");
    if c.tracestate.Some? {
      var state := HttpField(Name("tracestate"), One(c.tracestate.value));
      ValuesOfAppend(base + [parent], state, "traceparent");
      ValuesOfAppend(base + [parent], state, "tracestate");
      ValuesOfAppend(base + [parent], state, "baggage");
      assert base + ContextFields(c) == (base + [parent]) + [state];
    } else {
      assert base + ContextFields(c) == base + [parent];
    }
  }

  // Injecting and parsing gives the context back exactly when the result has
  // fewer than 64 fields; injecting into such a mapping never fails.
  lemma ParseInject(hs: seq<HttpField>, c: TraceContext)
    requires ValidContext(c)
    ensures Inject(hs, c).Ok? <==> |hs| < 64 && AllNamed(hs)
    ensures Inject(hs, c).Ok? ==>
      (Parse(Inject(hs, c).value) == Ok(Some(c)) <==> |Inject(hs, c).value| < 64)
  {
    hide Lower, ValuesOf, WithoutContext, Normalize, Normal, TraceparentOk;
    ContextFixed(c);
    if Inject(hs, c).Ok? {
      var out := Inject(hs, c).value;
      InjectedFields(hs, c);
      StillNamed(hs);
      if |out| < 64 {
        TracestateNeverFails(out, c.traceparent);
        if c.tracestate.Some? {
          OneTracestateBack(c.tracestate.value);
        } else {
          NoTracestate([]);
        }
      }
    }
  }

  lemma OneTracestateBack(t: string)
    requires Normal(t)
    ensures TracestateOf([One(t)]) == Some(t)
  {
    hide Normalize;
    NormalExactly(t, true);
    var raws := [One(t)];
    assert raws[1..] == [];
    assert [] + [t] == [t];
    assert CollectTracestate([t], raws[1..]) == Ok([t]);
    assert HeaderValues(raws[0], MAX_TRACESTATE_VALUES) == Ok([t]);
    assert [t][0] == t && AllShort([t]);
  }
}
