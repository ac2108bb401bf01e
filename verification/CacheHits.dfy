// When a capability call asks and when it answers from the cache, said on the
// events of a run: which bodies and 304s have arrived, for calls begun when, and
// what was invalidated since.
module CacheHits {
  import opened Wrappers
  import opened CapabilityCache
  import opened CacheRuns

  // ---------------------------------------------------------------------
  // Forced calls
  // ---------------------------------------------------------------------

  // Call `id` was begun by event `b` and has neither resumed nor been cancelled by state `n`.
  ghost predicate UnderWay(events: seq<Event>, b: nat, n: nat, id: nat) {
    && b < n <= |events| && events[b].Begin? && events[b].id == id
    && forall i :: b < i < n ==> events[i] != Finish(id) && events[i] != Abandon(id)
  }

  // A forced call is never answered from the cache, and asks without a tag.
  lemma {:induction false} ForcedCallAsks(states: seq<System>, events: seq<Event>, b: nat, n: nat, id: nat, ttl: int)
    requires IsRun(states, events, ttl) && UnderWay(events, b, n, id) && events[b].force
    requires Consistent(states[b])
    ensures Outcome(states[b], events[b], ttl).None?
    ensures id in states[n].flights
    ensures var call := states[n].flights[id].call;
            call.target == events[b].target && call.ifNoneMatch.None? && call.start == states[b].clock
    decreases n
  {
    hide Reply, FinishCall;
    assert Next(states[n - 1], events[n - 1], states[n], ttl);
    if n > b + 1 {
      ForcedCallAsks(states, events, b, n - 1, id, ttl);
    }
  }

  // Whatever a forced call returns, the server held at the time the call began or later.
  lemma ForcedCallIsCurrent(states: seq<System>, events: seq<Event>, b: nat, n: nat, id: nat, ttl: int)
    requires IsRun(states, events, ttl) && TagsIdentify(states)
    requires UnderWay(events, b, n, id) && events[b].force && n < |events| && events[n] == Finish(id)
    requires Consistent(states[b]) && Consistent(states[n]) && Outcome(states[n], events[n], ttl).Some?
    ensures var r := Outcome(states[n], events[n], ttl).value;
            && r.target == events[b].target && r.start == states[b].clock
            && exists j :: 0 <= j <= n && HeldAt(states, j, r.target, r.payload, states[b].clock)
  {
    hide TagsIdentify, Next, Seen, TagOf;
    ForcedCallAsks(states, events, b, n, id, ttl);
    RunKeeps(states, events, n, ttl, false);
    var f := states[n].flights[id];
    assert FlightOk(states, n, f) && ResponseOk(states, n, f.call, f.response);
    var r := Outcome(states[n], events[n], ttl).value;
    SeenMeans(states, n, r.target, r.payload, TagOf(f.call.target, f.response.header, f.response.bodyTag), r.start);
  }

  lemma SeenMeans(states: seq<System>, n: nat, t: Target, payload: Payload, tag: string, since: int)
    requires n < |states| && Seen(states, n, t, payload, tag, since)
    ensures exists j :: 0 <= j <= n && HeldAt(states, j, t, payload, since)
  {
  }

  // ---------------------------------------------------------------------
  // Hits
  // ---------------------------------------------------------------------

  // The event that began call `id`, the last before state `n`.
  function BegunBy(events: seq<Event>, n: nat, id: nat): (b: Option<nat>)
    requires n <= |events|
    ensures b.Some? ==> b.value < n && events[b.value].Begin? && events[b.value].id == id
  {
    if n == 0 then None
    else if events[n - 1].Begin? && events[n - 1].id == id then Some(n - 1)
    else BegunBy(events, n - 1, id)
  }

  // Event `n` resumes a call for `t` with a body.
  predicate Stores(states: seq<System>, events: seq<Event>, n: nat, t: Target)
    requires n < |events| < |states|
  {
    && events[n].Finish? && events[n].id in states[n].flights
    && var f := states[n].flights[events[n].id]; f.Answered? && f.response.Body? && f.call.target == t
  }

  // The last event before state `n` that stored a body for `t`, if no invalidate came since.
  function StoredBy(states: seq<System>, events: seq<Event>, n: nat, t: Target): (m: Option<nat>)
    requires n <= |events| < |states|
    ensures m.Some? ==> m.value < n && Stores(states, events, m.value, t)
  {
    if n == 0 || events[n - 1].Invalidate? then None
    else if Stores(states, events, n - 1, t) then Some(n - 1)
    else StoredBy(states, events, n - 1, t)
  }

  // Event `n` resumes, with a 304, a call for `t` that speaks of the body stored by
  // event `m`: for one action the body that was there when the call began, for the
  // list the one that is there now.
  predicate Renews(states: seq<System>, events: seq<Event>, n: nat, t: Target, m: nat)
    requires n < |events| < |states|
  {
    && events[n].Finish? && events[n].id in states[n].flights
    && var f := states[n].flights[events[n].id];
    && f.Answered? && f.response.NotModified? && f.call.target == t
    && var b := BegunBy(events, n, events[n].id);
       b.Some? && StoredBy(states, events, if t.Listing? then n else b.value, t) == Some(m)
  }

  // When the call began that stored the body, or last renewed it, before state `n`.
  function ConfirmedAt(states: seq<System>, events: seq<Event>, n: nat, t: Target, m: nat): int
    requires m < n <= |events| < |states| && events[m].Finish?
    decreases n
  {
    var at := n - 1;
    if at > m && !Renews(states, events, at, t, m) then ConfirmedAt(states, events, at, t, m)
    else
      var b := BegunBy(events, at, events[at].id);
      if b.Some? then states[b.value].clock else 0
  }

  // The entry that event `m` made.
  function MadeBy(states: seq<System>, m: nat): nat
    requires m < |states|
  {
    |states[m].cache.entries|
  }

  ghost predicate SlotTold(states: seq<System>, events: seq<Event>, n: nat, t: Target)
    requires n <= |events| < |states|
  {
    var m := StoredBy(states, events, n, t);
    Slot(states[n].cache, t) == if m.Some? then Some(MadeBy(states, m.value)) else None
  }

  ghost predicate EntryTold(states: seq<System>, events: seq<Event>, n: nat, t: Target, m: nat, ttl: int)
    requires m < n <= |events| < |states| && Stores(states, events, m, t)
  {
    var x, f := MadeBy(states, m), states[m].flights[events[m].id];
    && x < |states[n].cache.entries|
    && states[n].cache.entries[x].payload == f.response.payload
    && states[n].cache.entries[x].owner == t
    && states[n].cache.entries[x].expiresAt == ConfirmedAt(states, events, n, t, m) + ttl
  }

  ghost predicate FlightTold(states: seq<System>, events: seq<Event>, n: nat, id: nat)
    requires n <= |events| < |states| && id in states[n].flights
  {
    var b, call := BegunBy(events, n, id), states[n].flights[id].call;
    && b.Some? && b.value < n && events[b.value].Begin?
    && call.target == events[b.value].target && call.start == states[b.value].clock
    && call.cached == (var m := StoredBy(states, events, b.value, call.target);
                       if m.Some? then Some(MadeBy(states, m.value)) else None)
  }

  ghost predicate Told(states: seq<System>, events: seq<Event>, n: nat, ttl: int)
    requires n <= |events| < |states|
  {
    && (forall t :: SlotTold(states, events, n, t))
    && (forall t, m :: 0 <= m < n && Stores(states, events, m, t) ==> EntryTold(states, events, n, t, m, ttl))
    && (forall id :: id in states[n].flights ==> FlightTold(states, events, n, id))
  }

  // ---------------------------------------------------------------------
  // The cache holds what the events say
  // ---------------------------------------------------------------------

  predicate Resumed(s: System, e: Event) {
    e.Finish? && e.id in s.flights && s.flights[e.id].Answered?
  }

  // What a step does to an entry that is there: only a 304 that speaks of it moves its expiry.
  lemma EntryKept(s: System, e: Event, s': System, x: nat, ttl: int)
    requires Next(s, e, s', ttl) && x < |s.cache.entries|
    ensures x < |s'.cache.entries| && (e.Finish? ==> Resumed(s, e))
    ensures if e.Finish? && s.flights[e.id].response.NotModified?
               && Revalidated(s.cache, s.flights[e.id].call) == Some(x)
            then s'.cache.entries[x] == s.cache.entries[x].(expiresAt := s.flights[e.id].call.start + ttl)
            else s'.cache.entries[x] == s.cache.entries[x]
  {
    hide Reply, BeginCall, TagOf;
  }

  // And the entry that a body makes.
  lemma EntryMade(s: System, e: Event, s': System, ttl: int)
    requires Next(s, e, s', ttl) && e.Finish? && s.flights[e.id].response.Body?
    ensures |s'.cache.entries| == |s.cache.entries| + 1
    ensures var made, f := s'.cache.entries[|s.cache.entries|], s.flights[e.id];
            && made.owner == f.call.target && made.payload == f.response.payload
            && made.expiresAt == f.call.start + ttl
            && (match f.response.header
                case Some(tag) => tag != "" ==> made.etag == tag
                case None => true)
            && (f.response.header == None || f.response.header == Some("") ==>
                 made.etag == match f.call.target
                              case Listing => f.response.bodyTag
                              case Action(name) => "W/\"" + name + "\"")
  {
    hide Reply, BeginCall;
  }

  // And what it does to the slots.
  lemma SlotStep(s: System, e: Event, s': System, t: Target, ttl: int)
    requires Next(s, e, s', ttl)
    ensures |s.cache.entries| <= |s'.cache.entries|
    ensures Slot(s'.cache, t)
            == if e.Invalidate? then None
               else if Resumed(s, e) && s.flights[e.id].response.Body? && s.flights[e.id].call.target == t
               then Some(|s.cache.entries|)
               else Slot(s.cache, t)
  {
    hide Reply, BeginCall, TagOf;
  }

  lemma {:induction false} EntriesGrow(states: seq<System>, events: seq<Event>, n: nat, i: nat, ttl: int)
    requires IsRun(states, events, ttl) && i <= n <= |events|
    ensures |states[i].cache.entries| <= |states[n].cache.entries|
    ensures i < n && (exists t :: Stores(states, events, i, t)) ==> MadeBy(states, i) < |states[n].cache.entries|
    decreases n
  {
    hide Next;
    if i < n {
      EntriesGrow(states, events, n - 1, i, ttl);
      SlotStep(states[n - 1], events[n - 1], states[n], Listing, ttl);
      if i == n - 1 && Resumed(states[i], events[i]) && states[i].flights[events[i].id].response.Body? {
        EntryMade(states[i], events[i], states[n], ttl);
      }
    }
  }

  // Two events never make the same entry.
  lemma MadeApart(states: seq<System>, events: seq<Event>, i: nat, j: nat, t: Target, u: Target, ttl: int)
    requires IsRun(states, events, ttl) && i < |events| && j < |events|
    requires Stores(states, events, i, t) && Stores(states, events, j, u) && MadeBy(states, i) == MadeBy(states, j)
    ensures i == j && t == u
  {
    hide Stores, MadeBy, Next;
    if i < j {
      EntriesGrow(states, events, j, i, ttl);
    }
    if j < i {
      EntriesGrow(states, events, i, j, ttl);
    }
    MadeCount(states, i);
    MadeCount(states, j);
    assert i == j;
    StoresOne(states, events, i, t, u);
  }

  lemma MadeCount(states: seq<System>, i: nat)
    requires i < |states|
    ensures MadeBy(states, i) == |states[i].cache.entries|
  {
  }

  lemma StoresOne(states: seq<System>, events: seq<Event>, i: nat, t: Target, u: Target)
    requires i < |events| < |states| && Stores(states, events, i, t) && Stores(states, events, i, u)
    ensures t == u
  {
  }

  lemma SlotNext(states: seq<System>, events: seq<Event>, n: nat, t: Target, ttl: int)
    requires IsRun(states, events, ttl) && n < |events| && SlotTold(states, events, n, t)
    ensures SlotTold(states, events, n + 1, t)
  {
    hide Next;
    SlotStep(states[n], events[n], states[n + 1], t, ttl);
  }

  // Which entry a 304 extends.
  lemma RenewsExactly(states: seq<System>, events: seq<Event>, n: nat, t: Target, m: nat, ttl: int)
    requires IsRun(states, events, ttl) && n < |events| && Told(states, events, n, ttl)
    requires m < n && Stores(states, events, m, t)
    requires events[n].Finish? && events[n].id in states[n].flights
    requires var f := states[n].flights[events[n].id]; f.Answered? && f.response.NotModified?
    ensures Renews(states, events, n, t, m)
            <==> Revalidated(states[n].cache, states[n].flights[events[n].id].call) == Some(MadeBy(states, m))
  {
    hide Stores, Next, EntryTold, MadeBy;
    var id := events[n].id;
    var call := states[n].flights[id].call;
    assert FlightTold(states, events, n, id) && SlotTold(states, events, n, call.target);
    var at := if call.target.Listing? then n else BegunBy(events, n, id).value;
    var s := StoredBy(states, events, at, call.target);
    assert Revalidated(states[n].cache, call) == if s.Some? then Some(MadeBy(states, s.value)) else None;
    if s.Some? && MadeBy(states, s.value) == MadeBy(states, m) {
      MadeApart(states, events, s.value, m, call.target, t, ttl);
    }
    if s == Some(m) {
      StoresOne(states, events, m, t, call.target);
    }
  }

  lemma EntryNext(states: seq<System>, events: seq<Event>, n: nat, t: Target, m: nat, ttl: int)
    requires IsRun(states, events, ttl) && n < |events| && Told(states, events, n, ttl)
    requires m <= n && Stores(states, events, m, t)
    ensures EntryTold(states, events, n + 1, t, m, ttl)
  {
    hide Next, SlotTold, StoredBy, Revalidated;
    var e, x := events[n], MadeBy(states, m);
    assert Next(states[n], e, states[n + 1], ttl);
    if m < n {
      assert EntryTold(states, events, n, t, m, ttl);
      EntryKept(states[n], e, states[n + 1], x, ttl);
      if Resumed(states[n], e) && states[n].flights[e.id].response.NotModified? {
        RenewsExactly(states, events, n, t, m, ttl);
        assert FlightTold(states, events, n, e.id);
      }
    } else {
      EntryMade(states[n], e, states[n + 1], ttl);
      assert FlightTold(states, events, n, e.id);
    }
  }

  // A call under way stays what it was when it began.
  lemma CallKept(s: System, e: Event, s': System, id: nat, ttl: int)
    requires Next(s, e, s', ttl) && id in s'.flights
    ensures e.Begin? && e.id == id ==>
      var call := s'.flights[id].call;
      id !in s.flights && call.target == e.target && call.start == s.clock && call.cached == Slot(s.cache, e.target)
    ensures !(e.Begin? && e.id == id) ==> id in s.flights && s'.flights[id].call == s.flights[id].call
  {
    hide Reply, FinishCall;
  }

  lemma FlightNext(states: seq<System>, events: seq<Event>, n: nat, id: nat, ttl: int)
    requires IsRun(states, events, ttl) && n < |events| && Told(states, events, n, ttl)
    requires id in states[n + 1].flights
    ensures FlightTold(states, events, n + 1, id)
  {
    hide Next, EntryTold, StoredBy, MadeBy, Stores;
    var e := events[n];
    CallKept(states[n], e, states[n + 1], id, ttl);
    if e.Begin? && e.id == id {
      assert BegunBy(events, n + 1, id) == Some(n);
      assert SlotTold(states, events, n, e.target);
    } else {
      assert BegunBy(events, n + 1, id) == BegunBy(events, n, id);
      assert FlightTold(states, events, n, id);
    }
  }

  lemma {:induction false} RunIsTold(states: seq<System>, events: seq<Event>, n: nat, ttl: int)
    requires IsRun(states, events, ttl) && n <= |events|
    ensures Told(states, events, n, ttl)
    decreases n
  {
    hide SlotTold, EntryTold, FlightTold, Next, Stores;
    if n == 0 {
      forall t ensures SlotTold(states, events, 0, t) {
        NothingTold(states, events, t);
      }
    } else {
      RunIsTold(states, events, n - 1, ttl);
      forall t ensures SlotTold(states, events, n, t) {
        SlotNext(states, events, n - 1, t, ttl);
      }
      forall t, m | 0 <= m < n && Stores(states, events, m, t) ensures EntryTold(states, events, n, t, m, ttl) {
        EntryNext(states, events, n - 1, t, m, ttl);
      }
      forall id | id in states[n].flights ensures FlightTold(states, events, n, id) {
        FlightNext(states, events, n - 1, id, ttl);
      }
    }
  }

  lemma NothingTold(states: seq<System>, events: seq<Event>, t: Target)
    requires |events| < |states| && states[0].cache == Cache([], map[], None)
    ensures SlotTold(states, events, 0, t)
  {
  }

  // A call that is not forced is answered from the cache exactly when a body for
  // its target has been stored and not invalidated since, and was confirmed, by the
  // call that fetched it or by a later 304, less than a TTL ago. Then it returns
  // that body.
  lemma {:induction false} HitsExactly(states: seq<System>, events: seq<Event>, n: nat, ttl: int)
    requires IsRun(states, events, ttl) && n < |events| && events[n].Begin? && !events[n].force
    requires Consistent(states[n])
    ensures var t := events[n].target;
            var m := StoredBy(states, events, n, t);
            && (Outcome(states[n], events[n], ttl).Some?
                <==> m.Some? && states[n].clock < ConfirmedAt(states, events, n, t, m.value) + ttl)
            && (Outcome(states[n], events[n], ttl).Some? ==>
                 Outcome(states[n], events[n], ttl)
                 == Some(Returned(t, states[m.value].flights[events[m.value].id].response.payload, states[n].clock)))
  {
    hide Next, StoredBy, ConfirmedAt, Stores;
    RunIsTold(states, events, n, ttl);
    var t := events[n].target;
    assert SlotTold(states, events, n, t);
    var m := StoredBy(states, events, n, t);
    if m.Some? {
      assert EntryTold(states, events, n, t, m.value, ttl);
    }
  }
}
