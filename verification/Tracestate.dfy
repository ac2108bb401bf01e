// trace_context.py: the tracestate normaliser, section 3.3 of W3C Trace Context Level 1.
module Tracestate {
  import opened Wrappers
  import opened Strings

  const MAX_LENGTH := 512
  const MAX_MEMBERS := 32
  const MAX_VALUE_LENGTH := 256

  // ---------------------------------------------------------------------
  // str.split(",") and ",".join
  // ---------------------------------------------------------------------

  function Split(s: string): (r: seq<string>)
    ensures r != []
  {
    if s == "" then [""]
    else
      var rest := Split(s[1..]);
      if s[0] == ',' then [""] + rest else [[s[0]] + rest[0]] + rest[1..]
  }

  function Join(parts: seq<string>): string {
    if parts == [] then ""
    else if |parts| == 1 then parts[0]
    else parts[0] + "," + Join(parts[1..])
  }

  // The fields of all values, in order.
  function RawMembers(values: seq<string>): seq<string> {
    if values == [] then [] else Split(values[0]) + RawMembers(values[1..])
  }

  // ---------------------------------------------------------------------
  // The grammar of one member
  // ---------------------------------------------------------------------

  predicate IsBlank(c: char) {
    c == ' ' || c == '\t'
  }

  predicate IsLower(c: char) {
    'a' <= c <= 'z'
  }

  predicate KeyChars(s: string) {
    forall i :: 0 <= i < |s| ==> IsLower(s[i]) || IsDigit(s[i]) || s[i] in {'_', '*', '/', '-'}
  }

  // [a-z][a-z0-9_*/-]{0,n-1}
  predicate Identifier(s: string, n: nat) {
    1 <= |s| <= n && IsLower(s[0]) && KeyChars(s)
  }

  predicate KeyOk(key: string) {
    || Identifier(key, 256)
    || exists i :: && 1 <= i <= 241 && i < |key| && key[i] == '@' && (IsLower(key[0]) || IsDigit(key[0]))
                   && KeyChars(key[..i]) && Identifier(key[i + 1..], 14)
  }

  predicate ValueOk(value: string) {
    && 1 <= |value| <= MAX_VALUE_LENGTH && !IsBlank(value[0])
    && forall i :: 0 <= i < |value| ==> ' ' <= value[i] <= '~' && value[i] != ',' && value[i] != '='
  }

  // Where the first "=" is, or the length.
  function KeyLength(member: string): (n: nat)
    ensures n <= |member|
    ensures n < |member| ==> member[n] == '='
    ensures forall i :: 0 <= i < n ==> member[i] != '='
  {
    if member == "" || member[0] == '=' then 0 else 1 + KeyLength(member[1..])
  }

  function KeyOf(member: string): string {
    member[..KeyLength(member)]
  }

  // One "=", with a key before it and a value after it; the value's characters exclude another.
  predicate MemberOk(member: string) {
    && KeyLength(member) < |member|
    && KeyOk(KeyOf(member))
    && ValueOk(member[KeyLength(member) + 1..])
  }

  // ---------------------------------------------------------------------
  // The scan, one raw member at a time
  // ---------------------------------------------------------------------

  function Keys(members: seq<string>): seq<string> {
    seq(|members|, i requires 0 <= i < |members| => KeyOf(members[i]))
  }

  function Step(members: seq<string>, raw: string, allowEmpty: bool): Result<seq<string>> {
    var member := StripChars(raw, IsBlank);
    if member == "" then if allowEmpty then Ok(members) else Err(ValueError)
    else if !MemberOk(member) || KeyOf(member) in Keys(members) || |members| >= MAX_MEMBERS then Err(ValueError)
    else Ok(members + [member])
  }

  function Scan(members: seq<string>, raws: seq<string>, allowEmpty: bool): Result<seq<string>>
    decreases raws
  {
    if raws == [] then Ok(members)
    else
      var next :- Step(members, raws[0], allowEmpty);
      Scan(next, raws[1..], allowEmpty)
  }

  // The length of ",".join(values).
  function RawLength(values: seq<string>): nat {
    if values == [] then 0 else if |values| == 1 then |values[0]| else |values[0]| + 1 + RawLength(values[1..])
  }

  // _normalize_tracestate
  function Normalize(values: seq<string>, allowEmpty: bool): Result<Option<string>> {
    if RawLength(values) > MAX_LENGTH then Err(ValueError)
    else
      var members :- Scan([], RawMembers(values), allowEmpty);
      if members == [] then if allowEmpty then Ok(None) else Err(ValueError)
      else if |Join(members)| > MAX_LENGTH then Err(ValueError)
      else Ok(Some(Join(members)))
  }

  // ---------------------------------------------------------------------
  // What the scan means
  // ---------------------------------------------------------------------

  predicate IsEmpty(raw: string) {
    StripChars(raw, IsBlank) == ""
  }

  // The members that are kept, stripped.
  function Kept(raws: seq<string>): seq<string> {
    if raws == [] then []
    else (if IsEmpty(raws[0]) then [] else [StripChars(raws[0], IsBlank)]) + Kept(raws[1..])
  }

  predicate NoEmpty(raws: seq<string>) {
    forall i :: 0 <= i < |raws| ==> !IsEmpty(raws[i])
  }

  predicate DistinctKeys(members: seq<string>) {
    forall i, j :: 0 <= i < j < |members| ==> KeyOf(members[i]) != KeyOf(members[j])
  }

  // At most 32 well-formed members with distinct keys.
  predicate GoodList(members: seq<string>) {
    |members| <= 32 && DistinctKeys(members) && forall i :: 0 <= i < |members| ==> MemberOk(members[i])
  }

  // What one step does to a good list.
  lemma StepMeans(members: seq<string>, raw: string, allowEmpty: bool)
    requires GoodList(members)
    ensures var member := StripChars(raw, IsBlank);
            Step(members, raw, allowEmpty)
            == if IsEmpty(raw) then if allowEmpty then Ok(members) else Err(ValueError)
               else if GoodList(members + [member]) then Ok(members + [member])
               else Err(ValueError)
  {
    hide GoodList, MemberOk, KeyOf, StripChars, Keys;
    GoodExtend(members, StripChars(raw, IsBlank));
  }

  lemma Regrouped(a: seq<string>, b: seq<string>, c: seq<string>)
    ensures a + (b + c) == (a + b) + c && [] + c == c
  {
  }

  lemma {:induction false} KeptFirst(members: seq<string>, raws: seq<string>)
    requires raws != []
    ensures var member := StripChars(raws[0], IsBlank);
            members + Kept(raws)
            == if IsEmpty(raws[0]) then members + Kept(raws[1..]) else (members + [member]) + Kept(raws[1..])
  {
    hide StripChars, IsEmpty;
    var member := StripChars(raws[0], IsBlank);
    Regrouped(members, if IsEmpty(raws[0]) then [] else [member], Kept(raws[1..]));
  }

  // The scan keeps the members in order and fails exactly when an empty member
  // is not allowed or what it keeps is no good list.
  lemma {:induction false} ScanMeans(members: seq<string>, raws: seq<string>, allowEmpty: bool)
    requires GoodList(members)
    ensures Scan(members, raws, allowEmpty)
            == if (allowEmpty || NoEmpty(raws)) && GoodList(members + Kept(raws)) then Ok(members + Kept(raws))
               else Err(ValueError)
    decreases raws
  {
    if raws == [] {
      assert members + Kept(raws) == members;
    } else {
      hide Step, GoodList, Kept, NoEmpty, StripChars, IsEmpty;
      NoEmptyFirst(raws);
      KeptFirst(members, raws);
      StepMeans(members, raws[0], allowEmpty);
      var next := Step(members, raws[0], allowEmpty);
      if next.Ok? {
        ScanMeans(next.value, raws[1..], allowEmpty);
      } else if !IsEmpty(raws[0]) {
        GoodPrefix(members + [StripChars(raws[0], IsBlank)], Kept(raws[1..]));
      }
    }
  }

  lemma NoEmptyFirst(raws: seq<string>)
    requires raws != []
    ensures NoEmpty(raws) <==> !IsEmpty(raws[0]) && NoEmpty(raws[1..])
  {
    if !IsEmpty(raws[0]) && NoEmpty(raws[1..]) {
      forall i | 0 <= i < |raws| ensures !IsEmpty(raws[i]) {
        if i > 0 { assert raws[i] == raws[1..][i - 1]; }
      }
    }
  }

  lemma GoodPrefix(a: seq<string>, b: seq<string>)
    ensures GoodList(a + b) ==> GoodList(a)
  {
    hide MemberOk, KeyOf;
    if GoodList(a + b) {
      forall i | 0 <= i < |a| ensures MemberOk(a[i]) {
        assert (a + b)[i] == a[i];
      }
      forall i, j | 0 <= i < j < |a| ensures KeyOf(a[i]) != KeyOf(a[j]) {
        assert (a + b)[i] == a[i] && (a + b)[j] == a[j];
      }
    }
  }

  lemma GoodExtend(members: seq<string>, member: string)
    requires GoodList(members)
    ensures GoodList(members + [member])
            <==> MemberOk(member) && KeyOf(member) !in Keys(members) && |members| < MAX_MEMBERS
  {
    hide MemberOk, KeyOf;
    var more, n := members + [member], |members|;
    if GoodList(more) {
      assert more[n] == member;
      forall i | 0 <= i < n ensures Keys(members)[i] != KeyOf(member) {
        assert more[i] == members[i];
      }
    }
    if MemberOk(member) && KeyOf(member) !in Keys(members) && n < MAX_MEMBERS {
      forall i, j | 0 <= i < j <= n ensures KeyOf(more[i]) != KeyOf(more[j]) {
        assert Keys(members)[i] == KeyOf(members[i]);
        if j == n { assert Keys(members)[i] in Keys(members); }
      }
    }
  }

  // ---------------------------------------------------------------------
  // Splitting and joining
  // ---------------------------------------------------------------------

  lemma {:induction false} SplitConcat(a: string, b: string)
    ensures Split(a + "," + b) == Split(a) + Split(b)
  {
    var s := a + "," + b;
    if a == "" {
      assert s[1..] == b;
    } else {
      assert s[1..] == a[1..] + "," + b;
      SplitConcat(a[1..], b);
    }
  }

  lemma {:induction false} SplitOne(s: string)
    requires forall i :: 0 <= i < |s| ==> s[i] != ','
    ensures Split(s) == [s]
  {
    if s != "" {
      SplitOne(s[1..]);
      assert [s[0]] + s[1..] == s;
    }
  }

  // Joining and splitting again gives the parts back, if none of them holds a comma.
  lemma {:induction false} SplitJoin(parts: seq<string>)
    requires parts != [] && forall i, j :: 0 <= i < |parts| && 0 <= j < |parts[i]| ==> parts[i][j] != ','
    ensures Split(Join(parts)) == parts
  {
    SplitOne(parts[0]);
    if |parts| > 1 {
      SplitJoin(parts[1..]);
      SplitConcat(parts[0], Join(parts[1..]));
      assert parts == [parts[0]] + parts[1..];
    }
  }

  // The values together and their join have the same raw members.
  lemma {:induction false} RawMembersOfJoin(values: seq<string>)
    requires values != []
    ensures Split(Join(values)) == RawMembers(values)
    ensures |Join(values)| == RawLength(values)
  {
    if |values| == 1 {
      assert RawMembers(values[1..]) == [];
    } else {
      RawMembersOfJoin(values[1..]);
      SplitConcat(values[0], Join(values[1..]));
    }
  }

  // Normalising a list of field values and normalising their join are the same,
  // failures included.
  lemma {:induction false} NormalizeOfJoin(values: seq<string>, allowEmpty: bool)
    ensures Normalize([Join(values)], allowEmpty) == Normalize(values, allowEmpty)
  {
    hide Step, Join;
    var one := [Join(values)];
    assert RawMembers(one) == Split(one[0]) + RawMembers([]) == Split(one[0]);
    if values == [] {
      EmptyMember(allowEmpty);
      assert Join(values) == "" by { JoinNothing(values); }
    } else {
      RawMembersOfJoin(values);
    }
  }

  lemma {:induction false} JoinNothing(values: seq<string>)
    requires values == []
    ensures Join(values) == ""
  {
  }

  // No value at all is treated like one empty value.
  lemma {:induction false} EmptyMember(allowEmpty: bool)
    ensures Scan([], Split(""), allowEmpty) == if allowEmpty then Ok([]) else Err(ValueError)
    ensures Split("") == [""]
  {
    StripTrims("", IsBlank);
    assert StripChars("", IsBlank) == "";
    assert [""][1..] == [];
  }

  // ---------------------------------------------------------------------
  // Lengths: the final check never fires
  // ---------------------------------------------------------------------

  function Width(parts: seq<string>): nat {
    if parts == [] then 0 else |parts[0]| + 1 + Width(parts[1..])
  }

  lemma {:induction false} WidthConcat(a: seq<string>, b: seq<string>)
    ensures Width(a + b) == Width(a) + Width(b)
  {
    if a == [] {
      assert a + b == b;
    } else {
      assert (a + b)[1..] == a[1..] + b;
      WidthConcat(a[1..], b);
    }
  }

  lemma {:induction false} JoinWidth(parts: seq<string>)
    requires parts != []
    ensures |Join(parts)| + 1 == Width(parts)
  {
    if |parts| > 1 {
      JoinWidth(parts[1..]);
    } else {
      assert Width(parts[1..]) == 0;
    }
  }

  lemma {:induction false} SplitWidth(s: string)
    ensures Width(Split(s)) == |s| + 1
  {
    if s != "" {
      var rest := Split(s[1..]);
      SplitWidth(s[1..]);
      if s[0] == ',' {
        assert ([""] + rest)[1..] == rest;
      } else {
        assert ([[s[0]] + rest[0]] + rest[1..])[1..] == rest[1..];
      }
    } else {
      assert Split(s) == [""] && [""][1..] == [];
      assert Width([""][1..]) == 0;
    }
  }

  lemma {:induction false} RawWidth(values: seq<string>)
    requires values != []
    ensures Width(RawMembers(values)) == RawLength(values) + 1
  {
    SplitWidth(values[0]);
    WidthConcat(Split(values[0]), RawMembers(values[1..]));
    if |values| > 1 {
      RawWidth(values[1..]);
    } else {
      assert RawMembers(values[1..]) == [];
    }
  }

  lemma {:induction false} KeptWidth(raws: seq<string>)
    ensures Width(Kept(raws)) <= Width(raws)
  {
    hide StripChars;
    if raws != [] {
      KeptWidth(raws[1..]);
      StripTrims(raws[0], IsBlank);
      if !IsEmpty(raws[0]) {
        var kept := [StripChars(raws[0], IsBlank)] + Kept(raws[1..]);
        assert kept[1..] == Kept(raws[1..]);
      } else {
        assert Kept(raws) == Kept(raws[1..]);
      }
    }
  }

  // The normal form is never longer than what was received, so once the input
  // has passed its length check the output always does.
  lemma {:induction false} KeptFits(values: seq<string>)
    requires Kept(RawMembers(values)) != []
    ensures |Join(Kept(RawMembers(values)))| <= RawLength(values)
  {
    RawWidth(values);
    KeptWidth(RawMembers(values));
    JoinWidth(Kept(RawMembers(values)));
  }

  // ---------------------------------------------------------------------
  // The specification
  // ---------------------------------------------------------------------

  // What may be normalised: short enough, and its non-empty members a good list.
  predicate Acceptable(values: seq<string>, allowEmpty: bool) {
    var raws := RawMembers(values);
    && RawLength(values) <= 512 && (allowEmpty || (raws != [] && NoEmpty(raws))) && GoodList(Kept(raws))
  }

  // The normal form is the join of the kept members, in the order received.
  lemma {:induction false} NormalizeMeans(values: seq<string>, allowEmpty: bool)
    ensures var kept := Kept(RawMembers(values));
            Normalize(values, allowEmpty)
            == if !Acceptable(values, allowEmpty) then Err(ValueError)
               else if kept == [] then Ok(None)
               else Ok(Some(Join(kept)))
  {
    hide MemberOk, Step, StripChars;
    var raws := RawMembers(values);
    ScanMeans([], raws, allowEmpty);
    assert [] + Kept(raws) == Kept(raws);
    if Kept(raws) != [] {
      KeptFits(values);
    }
    if NoEmpty(raws) && raws != [] {
      KeptSome(raws);
    }
  }

  lemma {:induction false} KeptSome(raws: seq<string>)
    requires raws != [] && NoEmpty(raws)
    ensures Kept(raws) != []
  {
  }

  // A list that is its own normal form.
  predicate Normal(t: string) {
    && |t| <= 512 && GoodList(Split(t))
    && forall i :: 0 <= i < |Split(t)| ==> Split(t)[i] != "" && Trimmed(Split(t)[i], IsBlank)
  }

  lemma MemberHasNoComma(member: string)
    requires MemberOk(member)
    ensures forall i :: 0 <= i < |member| ==> member[i] != ','
  {
    var n := KeyLength(member);
    var key, value := member[..n], member[n + 1..];
    forall i | 0 <= i < |member| ensures member[i] != ',' {
      if i < n {
        KeyHasNoComma(key);
        assert key[i] == member[i];
      } else if i > n {
        assert value[i - n - 1] == member[i];
      }
    }
  }

  lemma KeyHasNoComma(key: string)
    requires KeyOk(key)
    ensures forall i :: 0 <= i < |key| ==> key[i] != ','
  {
    if !Identifier(key, 256) {
      var at :| && 1 <= at <= 241 && at < |key| && key[at] == '@' && KeyChars(key[..at])
                && Identifier(key[at + 1..], 14);
      forall i | 0 <= i < |key| ensures key[i] != ',' {
        if i < at { assert key[..at][i] == key[i]; }
        else if i > at { assert key[at + 1..][i - at - 1] == key[i]; }
      }
    }
  }

  lemma {:induction false} KeptTrimmed(raws: seq<string>, i: nat)
    requires i < |Kept(raws)|
    ensures Kept(raws)[i] != "" && Trimmed(Kept(raws)[i], IsBlank)
  {
    hide StripChars;
    StripTrims(raws[0], IsBlank);
    if IsEmpty(raws[0]) {
      assert Kept(raws) == Kept(raws[1..]);
      KeptTrimmed(raws[1..], i);
    } else if i > 0 {
      KeptTrimmed(raws[1..], i - 1);
    }
  }

  lemma {:induction false} KeptOfTrimmed(parts: seq<string>)
    requires forall i :: 0 <= i < |parts| ==> parts[i] != "" && Trimmed(parts[i], IsBlank)
    ensures Kept(parts) == parts && NoEmpty(parts)
  {
    hide StripChars;
    if parts != [] {
      KeptOfTrimmed(parts[1..]);
      StripTrims(parts[0], IsBlank);
      NoEmptyFirst(parts);
      assert parts == [parts[0]] + parts[1..];
    }
  }

  // Every text the normaliser returns is in normal form.
  lemma {:induction false} NormalizeYieldsNormal(values: seq<string>, allowEmpty: bool)
    requires Normalize(values, allowEmpty).Ok? && Normalize(values, allowEmpty).value.Some?
    ensures Normal(Normalize(values, allowEmpty).value.value)
    ensures Split(Normalize(values, allowEmpty).value.value) == Kept(RawMembers(values))
  {
    hide MemberOk, Normalize, StripChars;
    NormalizeMeans(values, allowEmpty);
    var kept := Kept(RawMembers(values));
    KeptFits(values);
    forall i, j | 0 <= i < |kept| && 0 <= j < |kept[i]| ensures kept[i][j] != ',' {
      MemberHasNoComma(kept[i]);
    }
    SplitJoin(kept);
    forall i | 0 <= i < |kept| ensures kept[i] != "" && Trimmed(kept[i], IsBlank) {
      KeptTrimmed(RawMembers(values), i);
    }
  }

  lemma {:induction false} JoinMore(first: string, rest: seq<string>)
    requires rest != []
    ensures Join([first] + rest) == first + "," + Join(rest)
  {
    var parts := [first] + rest;
    assert parts[0] == first && parts[1..] == rest && |parts| > 1;
  }

  lemma Regroup(a: string, b: string, c: string)
    ensures (a + b) + "," + c == a + (b + "," + c)
    ensures "" + "," + c == "," + c
  {
  }

  // Putting a comma or a character in front of a joined text.
  lemma {:induction false} JoinFirst(first: string, parts: seq<string>)
    requires parts != []
    ensures Join([""] + parts) == "," + Join(parts)
    ensures Join([first + parts[0]] + parts[1..]) == first + Join(parts)
  {
    hide Join;
    JoinMore("", parts);
    Regroup("", "", Join(parts));
    assert parts == [parts[0]] + parts[1..];
    if |parts| > 1 {
      JoinMore(first + parts[0], parts[1..]);
      JoinMore(parts[0], parts[1..]);
      Regroup(first, parts[0], Join(parts[1..]));
    } else {
      assert parts == [parts[0]] && [first + parts[0]] + parts[1..] == [first + parts[0]];
      JoinOne(parts[0]);
      JoinOne(first + parts[0]);
    }
  }

  lemma {:induction false} JoinSplit(s: string)
    ensures Join(Split(s)) == s
  {
    hide Join;
    if s != "" {
      JoinSplit(s[1..]);
      JoinFirst([s[0]], Split(s[1..]));
      assert s == [s[0]] + s[1..];
    } else {
      JoinOne(s);
    }
  }

  lemma JoinOne(s: string)
    ensures Join([s]) == s
  {
  }

  // A text is returned unchanged, under both settings, exactly when it is in
  // normal form. So normalising twice is normalising once.
  lemma NormalExactly(t: string, allowEmpty: bool)
    ensures Normalize([t], allowEmpty) == Ok(Some(t)) <==> Normal(t)
  {
    hide MemberOk, Normalize, StripChars;
    NormalizeMeans([t], allowEmpty);
    assert RawMembers([t]) == Split(t) + RawMembers([]) == Split(t);
    if Normal(t) {
      KeptOfTrimmed(Split(t));
      JoinSplit(t);
    }
    if Normalize([t], allowEmpty) == Ok(Some(t)) {
      NormalizeYieldsNormal([t], allowEmpty);
    }
  }
}
