// Every interleaving of capability calls, invalidations and server changes.
module CacheRuns {
  import opened Wrappers
  import opened CapabilityCache

  // What the server holds for a target: the representation, the ETag header it
  // sends with it, and the tag inside the body.
  datatype Resource = Resource(payload: Payload, header: Option<string>, bodyTag: string)

  datatype Flight = Waiting(call: Call) | Answered(call: Call, response: Response)

  datatype System = System(cache: Cache, clock: int, server: map<Target, Resource>, flights: map<nat, Flight>)

  datatype Event =
    | Tick(now: int)
    | Change(target: Target, resource: Option<Resource>)
    | Invalidate
    | Begin(id: nat, target: Target, force: bool)
    | Serve(id: nat)                // the server answers
    | Fail(id: nat)                 // no answer, or one that does not parse
    | Finish(id: nat)               // the call resumes with its answer
    | Abandon(id: nat)              // the call is cancelled

  // Sections 13.1.2 and 15.4.5 of RFC 9110: 304 when the current tag is the one asked about.
  function Reply(server: map<Target, Resource>, call: Call): Response {
    if call.target !in server then Refused
    else
      var r := server[call.target];
      if call.ifNoneMatch.Some? && call.ifNoneMatch.value != "" && r.header == call.ifNoneMatch then NotModified
      else Body(r.payload, r.header, r.bodyTag)
  }

  predicate CallOk(c: Cache, call: Call) {
    call.cached.Some? ==> call.cached.value < |c.entries|
  }

  ghost predicate Consistent(s: System) {
    SlotsOk(s.cache) && forall id :: id in s.flights ==> CallOk(s.cache, s.flights[id].call)
  }

  // One step, if it can happen.
  ghost function After(s: System, e: Event, ttl: int): Option<System>
    requires Consistent(s)
  {
    match e
    case Tick(now) => if now >= s.clock then Some(s.(clock := now)) else None
    case Change(t, r) => Some(s.(server := if r.Some? then s.server[t := r.value] else s.server - {t}))
    case Invalidate => Some(s.(cache := Invalidated(s.cache)))
    case Begin(id, t, force) =>
      if id in s.flights then None
      else
        var begun := BeginCall(s.cache, t, force, s.clock);
        Some(if begun.Hit? then s else s.(flights := s.flights[id := Waiting(begun.call)]))
    case Serve(id) =>
      if id !in s.flights || s.flights[id].Answered? then None
      else
        var call := s.flights[id].call;
        Some(s.(flights := s.flights[id := Answered(call, Reply(s.server, call))]))
    case Fail(id) =>
      if id !in s.flights || s.flights[id].Answered? then None
      else Some(s.(flights := s.flights[id := Answered(s.flights[id].call, Refused)]))
    case Finish(id) =>
      if id !in s.flights || s.flights[id].Waiting? then None
      else
        var f := s.flights[id];
        Some(s.(cache := FinishCall(s.cache, f.call, ttl, f.response).0, flights := s.flights - {id}))
    case Abandon(id) => if id !in s.flights then None else Some(s.(flights := s.flights - {id}))
  }

  ghost predicate Next(s: System, e: Event, s': System, ttl: int) {
    Consistent(s) && After(s, e, ttl) == Some(s')
  }

  ghost predicate IsRun(states: seq<System>, events: seq<Event>, ttl: int) {
    && ttl > 0 && |states| == |events| + 1
    && states[0].cache == Cache([], map[], None) && states[0].flights == map[]
    && forall i :: 0 <= i < |events| ==> Next(states[i], events[i], states[i + 1], ttl)
  }

  // A payload that a call hands back, and when that call began.
  datatype Returned = Returned(target: Target, payload: Payload, start: int)

  function Outcome(s: System, e: Event, ttl: int): Option<Returned>
    requires SlotsOk(s.cache)
    requires e.Finish? && e.id in s.flights ==> CallOk(s.cache, s.flights[e.id].call)
  {
    match e
    case Begin(_, t, force) =>
      var begun := BeginCall(s.cache, t, force, s.clock);
      if begun.Hit? then Some(Returned(t, begun.payload, s.clock)) else None
    case Finish(id) =>
      if id in s.flights && s.flights[id].Answered? then
        var f := s.flights[id];
        var r := FinishCall(s.cache, f.call, ttl, f.response).1;
        if r.Ok? then Some(Returned(f.call.target, r.value, f.call.start)) else None
      else None
    case _ => None
  }

  // The tag the client remembers for a representation.
  function TagFor(t: Target, r: Resource): string {
    TagOf(t, r.header, r.bodyTag)
  }

  // A server tag that equals a remembered one names the same representation. In
  // particular a fallback tag matches nothing else.
  ghost predicate TagsIdentify(states: seq<System>) {
    forall i, j, t :: 0 <= i < |states| && 0 <= j < |states| && t in states[i].server && t in states[j].server
                      && states[i].server[t].header == Some(TagFor(t, states[j].server[t]))
                      ==> states[i].server[t].payload == states[j].server[t].payload
  }

  predicate ListingsIn(s: System, a: nat, b: nat) {
    && a in s.flights && s.flights[a].call.target.Listing?
    && b in s.flights && s.flights[b].call.target.Listing?
  }

  // The list slot holds the entry a call began with, or one with the tag it asked about.
  predicate SlotMatches(c: Cache, call: Call) {
    c.list == call.cached
    || (c.list.Some? && c.list.value < |c.entries| && call.ifNoneMatch == Some(c.entries[c.list.value].etag))
  }

  // A list call that resumes with a 304 finds such an entry, or none, and not one
  // with another tag that another list call has stored since.
  predicate SlotHeld(s: System, e: Event) {
    e.Finish? && e.id in s.flights && s.flights[e.id].call.target.Listing? && s.flights[e.id].Answered?
    && s.flights[e.id].response.NotModified?
    ==> s.cache.list.None? || SlotMatches(s.cache, s.flights[e.id].call)
  }

  ghost predicate SlotsHeld(states: seq<System>, events: seq<Event>, n: nat)
    requires n <= |events| <= |states|
  {
    forall i :: 0 <= i < n ==> SlotHeld(states[i], events[i])
  }

  // List calls do not overlap.
  ghost predicate OneListing(states: seq<System>) {
    forall i, a, b :: 0 <= i < |states| && ListingsIn(states[i], a, b) ==> a == b
  }

  // ---------------------------------------------------------------------
  // The invariant
  // ---------------------------------------------------------------------

  // The server held this representation in state `j`, no earlier than `since`.
  predicate HeldAt(states: seq<System>, j: nat, t: Target, payload: Payload, since: int)
    requires j < |states|
  {
    t in states[j].server && states[j].server[t].payload == payload && states[j].clock >= since
  }

  ghost predicate Seen(states: seq<System>, n: nat, t: Target, payload: Payload, tag: string, since: int)
    requires n < |states|
  {
    exists j :: 0 <= j <= n && HeldAt(states, j, t, payload, since) && TagFor(t, states[j].server[t]) == tag
  }

  ghost predicate Matched(states: seq<System>, n: nat, t: Target, tag: string, since: int)
    requires n < |states|
  {
    exists j :: 0 <= j <= n && t in states[j].server && states[j].server[t].header == Some(tag)
        && states[j].clock >= since
  }

  ghost predicate EntryOk(states: seq<System>, n: nat, e: Entry, ttl: int)
    requires n < |states|
  {
    Seen(states, n, e.owner, e.payload, e.etag, e.expiresAt - ttl)
  }

  ghost predicate ResponseOk(states: seq<System>, n: nat, call: Call, r: Response)
    requires n < |states|
  {
    match r
    case Refused => true
    case Body(payload, header, bodyTag) =>
      Seen(states, n, call.target, payload, TagOf(call.target, header, bodyTag), call.start)
    case NotModified =>
      call.ifNoneMatch.Some? && call.ifNoneMatch.value != ""
      && Matched(states, n, call.target, call.ifNoneMatch.value, call.start)
  }

  ghost predicate FlightOk(states: seq<System>, n: nat, f: Flight)
    requires n < |states|
  {
    var c, call := states[n].cache, f.call;
    && CallOk(c, call) && call.start <= states[n].clock
    && (call.cached.Some? ==> c.entries[call.cached.value].owner == call.target)
    && (call.ifNoneMatch.Some? ==>
      call.cached.Some? && c.entries[call.cached.value].etag == call.ifNoneMatch.value)
    && (f.Answered? ==> ResponseOk(states, n, call, f.response))
  }

  ghost predicate OwnersOk(c: Cache)
    requires SlotsOk(c)
  {
    && (forall a :: a in c.actions ==> c.entries[c.actions[a]].owner == Action(a))
    && (c.list.Some? ==> c.entries[c.list.value].owner == Listing)
  }

  // Entries for actions are always vouched for; with `lists`, when every 304 for
  // the list finds its own entry, so are entries for the list.
  ghost predicate Inv(states: seq<System>, n: nat, ttl: int, lists: bool)
    requires n < |states|
  {
    var s := states[n];
    && SlotsOk(s.cache) && OwnersOk(s.cache)
    && (forall x :: 0 <= x < |s.cache.entries| && (lists || s.cache.entries[x].owner.Action?)
                    ==> EntryOk(states, n, s.cache.entries[x], ttl))
    && (forall id :: id in s.flights ==> FlightOk(states, n, s.flights[id]))
  }

  // ---------------------------------------------------------------------
  // Preservation
  // ---------------------------------------------------------------------

  lemma SeenLater(states: seq<System>, n: nat, t: Target, payload: Payload, tag: string, since: int)
    requires n + 1 < |states|
    ensures Seen(states, n, t, payload, tag, since) ==> Seen(states, n + 1, t, payload, tag, since)
  {
  }

  lemma ResponseLater(states: seq<System>, n: nat, call: Call, r: Response)
    requires n + 1 < |states| && ResponseOk(states, n, call, r)
    ensures ResponseOk(states, n + 1, call, r)
  {
    match r
    case Body(payload, header, bodyTag) =>
      SeenLater(states, n, call.target, payload, TagOf(call.target, header, bodyTag), call.start);
    case _ =>
  }

  // A flight stays fine while the entries it refers to keep owner and tag.
  lemma FlightLater(states: seq<System>, n: nat, f: Flight)
    requires n + 1 < |states| && FlightOk(states, n, f)
    requires states[n].clock <= states[n + 1].clock
    requires var c, d := states[n].cache, states[n + 1].cache;
             && |c.entries| <= |d.entries|
             && (forall x :: 0 <= x < |c.entries| ==>
                  d.entries[x].owner == c.entries[x].owner && d.entries[x].etag == c.entries[x].etag)
    ensures FlightOk(states, n + 1, f)
  {
    hide ResponseOk;
    if f.Answered? {
      ResponseLater(states, n, f.call, f.response);
    }
  }

  lemma EntryLater(states: seq<System>, n: nat, e: Entry, ttl: int)
    requires n + 1 < |states| && EntryOk(states, n, e, ttl)
    ensures EntryOk(states, n + 1, e, ttl)
  {
    SeenLater(states, n, e.owner, e.payload, e.etag, e.expiresAt - ttl);
  }

  // Steps that leave the cache's entries alone.
  lemma QuietKeeps(states: seq<System>, n: nat, ttl: int, lists: bool)
    requires n + 1 < |states| && Inv(states, n, ttl, lists)
    requires states[n].clock <= states[n + 1].clock
    requires states[n + 1].cache.entries == states[n].cache.entries
    requires states[n + 1].cache == states[n].cache || states[n + 1].cache == Invalidated(states[n].cache)
    requires forall id :: id in states[n + 1].flights ==>
               (id in states[n].flights && states[n + 1].flights[id] == states[n].flights[id])
               || FlightOk(states, n + 1, states[n + 1].flights[id])
    ensures Inv(states, n + 1, ttl, lists)
  {
    hide EntryOk, FlightOk;
    var s := states[n + 1];
    forall x | 0 <= x < |s.cache.entries| && (lists || s.cache.entries[x].owner.Action?)
      ensures EntryOk(states, n + 1, s.cache.entries[x], ttl)
    {
      EntryLater(states, n, s.cache.entries[x], ttl);
    }
    forall id | id in s.flights ensures FlightOk(states, n + 1, s.flights[id]) {
      if !FlightOk(states, n + 1, s.flights[id]) {
        assert id in states[n].flights && FlightOk(states, n, states[n].flights[id]);
        FlightLater(states, n, s.flights[id]);
      }
    }
  }

  lemma BegunOk(states: seq<System>, n: nat, t: Target, force: bool, ttl: int, lists: bool)
    requires n + 1 < |states| && Inv(states, n, ttl, lists) && states[n + 1].cache == states[n].cache
    requires states[n + 1].clock == states[n].clock
    requires BeginCall(states[n].cache, t, force, states[n].clock).Asked?
    ensures FlightOk(states, n + 1, Waiting(BeginCall(states[n].cache, t, force, states[n].clock).call))
  {
    hide EntryOk;
  }

  lemma ServedOk(states: seq<System>, n: nat, call: Call)
    requires n + 1 < |states| && FlightOk(states, n, Waiting(call))
    requires states[n + 1].cache == states[n].cache && states[n + 1].clock == states[n].clock
    requires states[n + 1].server == states[n].server
    ensures FlightOk(states, n + 1, Answered(call, Reply(states[n].server, call)))
  {
    var r := Reply(states[n].server, call);
    if r.Body? {
      assert HeldAt(states, n + 1, call.target, r.payload, call.start);
      assert TagFor(call.target, states[n + 1].server[call.target]) == TagOf(call.target, r.header, r.bodyTag);
    }
    assert ResponseOk(states, n + 1, call, r);
  }

  // A 304 vouches for the entry it is matched with: the server held that very
  // representation after the call began.
  lemma RevalidatedSeen(states: seq<System>, n: nat, call: Call, e: Entry, ttl: int)
    requires n < |states| && TagsIdentify(states)
    requires EntryOk(states, n, e, ttl) && e.owner == call.target
    requires call.ifNoneMatch == Some(e.etag) && ResponseOk(states, n, call, NotModified)
    ensures Seen(states, n, call.target, e.payload, e.etag, call.start)
  {
    var j :| 0 <= j <= n && call.target in states[j].server && states[j].server[call.target].header == Some(e.etag)
             && states[j].clock >= call.start;
    var m :| 0 <= m <= n && HeldAt(states, m, e.owner, e.payload, e.expiresAt - ttl)
             && TagFor(e.owner, states[m].server[e.owner]) == e.etag;
    assert states[j].server[call.target].payload == e.payload;
    assert HeldAt(states, j, call.target, e.payload, call.start);
    assert TagFor(call.target, states[j].server[call.target]) == e.etag;
  }

  // Which entry a 304 extends, and that it is the one the request asked about.
  lemma RevalidatedEntry(states: seq<System>, n: nat, f: Flight)
    requires n < |states| && SlotsOk(states[n].cache) && OwnersOk(states[n].cache) && FlightOk(states, n, f)
    requires f.Answered? && f.response.NotModified? && Revalidated(states[n].cache, f.call).Some?
    requires f.call.target.Action? || SlotMatches(states[n].cache, f.call)
    ensures var x := Revalidated(states[n].cache, f.call).value;
            && x < |states[n].cache.entries|
            && states[n].cache.entries[x].owner == f.call.target
            && f.call.ifNoneMatch == Some(states[n].cache.entries[x].etag)
  {
  }

  lemma FinishKeeps(states: seq<System>, n: nat, id: nat, ttl: int, lists: bool)
    requires n + 1 < |states| && Inv(states, n, ttl, lists) && TagsIdentify(states)
    requires Next(states[n], Finish(id), states[n + 1], ttl)
    requires lists ==> SlotHeld(states[n], Finish(id))
    ensures Inv(states, n + 1, ttl, lists)
  {
    hide EntryOk, FlightOk, ResponseOk, Seen, TagsIdentify;
    var s, t := states[n], states[n + 1];
    var f := s.flights[id];
    assert FlightOk(states, n, f);
    forall x | 0 <= x < |t.cache.entries| && (lists || t.cache.entries[x].owner.Action?)
      ensures EntryOk(states, n + 1, t.cache.entries[x], ttl)
    {
      FinishedEntry(states, n, f, x, ttl, lists);
    }
    FinishedOwners(states, n, f, ttl, lists);
    forall b | b in t.flights ensures FlightOk(states, n + 1, t.flights[b]) {
      assert s.flights[b] == t.flights[b];
      FlightLater(states, n, t.flights[b]);
    }
  }

  lemma FinishedOwners(states: seq<System>, n: nat, f: Flight, ttl: int, lists: bool)
    requires n + 1 < |states| && Inv(states, n, ttl, lists) && FlightOk(states, n, f) && f.Answered?
    requires states[n + 1].cache == FinishCall(states[n].cache, f.call, ttl, f.response).0
    ensures var c, d := states[n].cache, states[n + 1].cache;
            && SlotsOk(d) && OwnersOk(d) && |c.entries| <= |d.entries|
            && (forall x :: 0 <= x < |c.entries| ==>
                 d.entries[x].owner == c.entries[x].owner && d.entries[x].etag == c.entries[x].etag)
            && (d.list == c.list || f.call.target.Listing?)
  {
    hide EntryOk, ResponseOk, TagOf;
  }

  lemma FinishedEntry(states: seq<System>, n: nat, f: Flight, x: nat, ttl: int, lists: bool)
    requires n + 1 < |states| && Inv(states, n, ttl, lists) && TagsIdentify(states)
    requires FlightOk(states, n, f) && f.Answered?
    requires lists && f.response.NotModified? && f.call.target.Listing?
             ==> states[n].cache.list.None? || SlotMatches(states[n].cache, f.call)
    requires states[n + 1].cache == FinishCall(states[n].cache, f.call, ttl, f.response).0
    requires x < |states[n + 1].cache.entries| && (lists || states[n + 1].cache.entries[x].owner.Action?)
    ensures EntryOk(states, n + 1, states[n + 1].cache.entries[x], ttl)
  {
    hide Seen, TagsIdentify, TagOf;
    var c, d := states[n].cache, states[n + 1].cache;
    var e := d.entries[x];
    if x == |c.entries| {
      assert f.response.Body?;
      assert ResponseOk(states, n, f.call, f.response);
      SeenLater(states, n, e.owner, e.payload, e.etag, f.call.start);
    } else if e == c.entries[x] {
      EntryLater(states, n, e, ttl);
    } else {
      RevalidatedEntry(states, n, f);
      RevalidatedSeen(states, n, f.call, c.entries[x], ttl);
      SeenLater(states, n, e.owner, e.payload, e.etag, f.call.start);
    }
  }

  lemma NextKeeps(states: seq<System>, events: seq<Event>, n: nat, ttl: int, lists: bool)
    requires IsRun(states, events, ttl) && n < |events| && Inv(states, n, ttl, lists) && TagsIdentify(states)
    requires lists ==> SlotHeld(states[n], events[n])
    ensures Inv(states, n + 1, ttl, lists)
  {
    hide EntryOk, FlightOk, TagsIdentify, BeginCall, FinishCall, Reply;
    var s, e := states[n], events[n];
    assert Next(states[n], events[n], states[n + 1], ttl);
    match e {
      case Begin(id, t, force) =>
        if BeginCall(s.cache, t, force, s.clock).Asked? { BegunOk(states, n, t, force, ttl, lists); }
        QuietKeeps(states, n, ttl, lists);
      case Serve(id) =>
        assert FlightOk(states, n, s.flights[id]);
        ServedOk(states, n, s.flights[id].call);
        QuietKeeps(states, n, ttl, lists);
      case Fail(id) =>
        FailedOk(states, n, s.flights[id].call);
        QuietKeeps(states, n, ttl, lists);
      case Finish(id) =>
        FinishKeeps(states, n, id, ttl, lists);
      case _ => QuietKeeps(states, n, ttl, lists);
    }
  }

  lemma FailedOk(states: seq<System>, n: nat, call: Call)
    requires n + 1 < |states| && FlightOk(states, n, Waiting(call))
    requires states[n + 1].cache == states[n].cache && states[n + 1].clock == states[n].clock
    ensures FlightOk(states, n + 1, Answered(call, Refused))
  {
  }

  lemma {:induction false} RunKeeps(states: seq<System>, events: seq<Event>, n: nat, ttl: int, lists: bool)
    requires IsRun(states, events, ttl) && n <= |events| && TagsIdentify(states)
    requires lists ==> SlotsHeld(states, events, n)
    ensures Inv(states, n, ttl, lists)
    decreases n
  {
    hide EntryOk, FlightOk, TagsIdentify, Next, SlotHeld;
    if n > 0 {
      RunKeeps(states, events, n - 1, ttl, lists);
      NextKeeps(states, events, n - 1, ttl, lists);
    }
  }

  // ---------------------------------------------------------------------
  // Freshness
  // ---------------------------------------------------------------------

  ghost predicate HeldAfter(states: seq<System>, n: nat, t: Target, payload: Payload, moment: int)
    requires n < |states|
  {
    exists j :: 0 <= j <= n && t in states[j].server && states[j].server[t].payload == payload
        && states[j].clock > moment
  }

  // The server held what is returned at a moment later than the call's start minus the TTL.
  ghost predicate Fresh(states: seq<System>, n: nat, r: Returned, ttl: int)
    requires n < |states|
  {
    HeldAfter(states, n, r.target, r.payload, r.start - ttl)
  }

  lemma SeenIsFresh(states: seq<System>, n: nat, r: Returned, tag: string, since: int, ttl: int)
    requires n < |states| && Seen(states, n, r.target, r.payload, tag, since) && since > r.start - ttl
    ensures Fresh(states, n, r, ttl)
  {
    var j :| 0 <= j <= n && HeldAt(states, j, r.target, r.payload, since)
        && TagFor(r.target, states[j].server[r.target]) == tag;
  }

  lemma ReturnedIsFresh(states: seq<System>, events: seq<Event>, n: nat, ttl: int, lists: bool)
    requires IsRun(states, events, ttl) && n < |events| && TagsIdentify(states)
    requires lists ==> SlotsHeld(states, events, n + 1)
    requires Consistent(states[n]) && Outcome(states[n], events[n], ttl).Some?
    requires lists || Outcome(states[n], events[n], ttl).value.target.Action?
    ensures Fresh(states, n, Outcome(states[n], events[n], ttl).value, ttl)
  {
    hide TagsIdentify, Seen, Fresh, Next;
    RunKeeps(states, events, n, ttl, lists);
    var s, r := states[n], Outcome(states[n], events[n], ttl).value;
    match events[n]
    case Begin(_, t, force) =>
      var e := s.cache.entries[Slot(s.cache, t).value];
      assert EntryOk(states, n, e, ttl);
      SeenIsFresh(states, n, r, e.etag, e.expiresAt - ttl, ttl);
    case Finish(id) =>
      var f := s.flights[id];
      assert FlightOk(states, n, f);
      if f.response.Body? {
        SeenIsFresh(states, n, r, TagOf(f.call.target, f.response.header, f.response.bodyTag), r.start, ttl);
      } else {
        RevalidatedEntry(states, n, f);
        var e := s.cache.entries[Revalidated(s.cache, f.call).value];
        assert EntryOk(states, n, e, ttl);
        RevalidatedSeen(states, n, f.call, e, ttl);
        SeenIsFresh(states, n, r, e.etag, r.start, ttl);
      }
    case _ =>
  }

  // get_capability, under every interleaving: whatever a call returns, the
  // server held it at a moment later than the call's start minus the TTL.
  lemma CapabilityIsFresh(states: seq<System>, events: seq<Event>, n: nat, ttl: int)
    requires IsRun(states, events, ttl) && n < |events| && TagsIdentify(states)
    requires Consistent(states[n]) && Outcome(states[n], events[n], ttl).Some?
    requires Outcome(states[n], events[n], ttl).value.target.Action?
    ensures Fresh(states, n, Outcome(states[n], events[n], ttl).value, ttl)
  {
    ReturnedIsFresh(states, events, n, ttl, false);
  }

  // list_capabilities too, in every run in which each 304 for the list finds an
  // entry with the tag its call asked about.
  lemma ListingIsFresh(states: seq<System>, events: seq<Event>, n: nat, ttl: int)
    requires IsRun(states, events, ttl) && n < |events| && TagsIdentify(states) && SlotsHeld(states, events, n + 1)
    requires Consistent(states[n]) && Outcome(states[n], events[n], ttl).Some?
    ensures Fresh(states, n, Outcome(states[n], events[n], ttl).value, ttl)
  {
    ReturnedIsFresh(states, events, n, ttl, true);
  }

  // While list calls do not overlap, the slot holds what the one under way began
  // with, unless it has been emptied.
  ghost predicate SlotWaits(s: System) {
    forall id :: id in s.flights && s.flights[id].call.target.Listing?
                 ==> s.cache.list.None? || s.cache.list == s.flights[id].call.cached
  }

  lemma {:induction false} SequentialSlots(states: seq<System>, events: seq<Event>, n: nat, ttl: int)
    requires IsRun(states, events, ttl) && n <= |events| && OneListing(states)
    ensures SlotWaits(states[n]) && SlotsHeld(states, events, n)
    decreases n
  {
    hide SlotHeld;
    if n > 0 {
      SequentialSlots(states, events, n - 1, ttl);
      SequentialStep(states, events, n - 1, ttl);
    }
  }

  lemma SequentialStep(states: seq<System>, events: seq<Event>, n: nat, ttl: int)
    requires IsRun(states, events, ttl) && n < |events| && OneListing(states) && SlotWaits(states[n])
    ensures SlotWaits(states[n + 1]) && SlotHeld(states[n], events[n])
  {
    hide TagOf, Reply;
    var s, t, e := states[n], states[n + 1], events[n];
    assert Next(s, e, t, ttl);
    if e.Finish? {
      forall id | id in t.flights && t.flights[id].call.target.Listing?
        ensures t.cache.list.None? || t.cache.list == t.flights[id].call.cached
      {
        assert s.flights[id] == t.flights[id];
        assert s.flights[e.id].call.target.Listing? ==> ListingsIn(states[n], id, e.id);
      }
    }
  }

  // In particular when list calls do not overlap.
  lemma SequentialListingIsFresh(states: seq<System>, events: seq<Event>, n: nat, ttl: int)
    requires IsRun(states, events, ttl) && n < |events| && TagsIdentify(states) && OneListing(states)
    requires Consistent(states[n]) && Outcome(states[n], events[n], ttl).Some?
    ensures Fresh(states, n, Outcome(states[n], events[n], ttl).value, ttl)
  {
    SequentialSlots(states, events, n + 1, ttl);
    ListingIsFresh(states, events, n, ttl);
  }

  // Every state of a run is consistent, so the requirement above excludes nothing.
  lemma RunsAreConsistent(states: seq<System>, events: seq<Event>, n: nat, ttl: int)
    requires IsRun(states, events, ttl) && n <= |events|
    ensures Consistent(states[n])
  {
    hide Consistent, Reply, TagOf;
    if n == 0 {
      EmptyIsConsistent(states[0]);
    } else {
      assert Next(states[n - 1], events[n - 1], states[n], ttl);
      StepIsConsistent(states[n - 1], events[n - 1], states[n], ttl);
    }
  }

  lemma EmptyIsConsistent(s: System)
    requires s.cache == Cache([], map[], None) && s.flights == map[]
    ensures Consistent(s)
  {
  }

  // Entries are only ever added, and slots and calls keep referring to them.
  lemma StepIsConsistent(s: System, e: Event, s': System, ttl: int)
    requires Next(s, e, s', ttl)
    ensures Consistent(s')
  {
    hide Reply, TagOf;
    forall id | id in s'.flights ensures CallOk(s'.cache, s'.flights[id].call) {
      if id in s.flights {
        assert CallOk(s.cache, s.flights[id].call);
      }
    }
  }

  // ---------------------------------------------------------------------
  // What a 304 for the list returns
  // ---------------------------------------------------------------------

  // The server names a representation by one tag.
  ghost predicate TagsAreStable(states: seq<System>) {
    forall i, j, t :: 0 <= i < |states| && 0 <= j < |states| && t in states[i].server && t in states[j].server
                      && states[i].server[t].payload == states[j].server[t].payload
                      ==> TagFor(t, states[i].server[t]) == TagFor(t, states[j].server[t])
  }

  // Whatever its expiry says by now, an entry came from the server.
  ghost predicate CameFromServer(states: seq<System>, n: nat, e: Entry)
    requires n < |states|
  {
    exists j :: 0 <= j <= n && e.owner in states[j].server && states[j].server[e.owner].payload == e.payload
                && TagFor(e.owner, states[j].server[e.owner]) == e.etag
  }

  lemma {:induction false} EntriesCameFromServer(states: seq<System>, events: seq<Event>, n: nat, ttl: int)
    requires IsRun(states, events, ttl) && n <= |events| && TagsIdentify(states)
    ensures forall x :: 0 <= x < |states[n].cache.entries| ==> CameFromServer(states, n, states[n].cache.entries[x])
    decreases n
  {
    hide TagsIdentify, Inv, CameFromServer;
    if n > 0 {
      EntriesCameFromServer(states, events, n - 1, ttl);
      RunKeeps(states, events, n - 1, ttl, false);
      assert Next(states[n - 1], events[n - 1], states[n], ttl);
      forall x | 0 <= x < |states[n].cache.entries| ensures CameFromServer(states, n, states[n].cache.entries[x]) {
        EntryCameFromServer(states, n - 1, events[n - 1], x, ttl);
      }
    }
  }

  lemma EntryCameFromServer(states: seq<System>, n: nat, e: Event, x: nat, ttl: int)
    requires n + 1 < |states| && Inv(states, n, ttl, false) && Next(states[n], e, states[n + 1], ttl)
    requires forall y :: 0 <= y < |states[n].cache.entries| ==> CameFromServer(states, n, states[n].cache.entries[y])
    requires x < |states[n + 1].cache.entries|
    ensures CameFromServer(states, n + 1, states[n + 1].cache.entries[x])
  {
    hide EntryOk, OwnersOk, TagOf, Reply, FlightOk;
    var c := states[n].cache;
    if x < |c.entries| {
      assert CameFromServer(states, n, c.entries[x]);
    } else {
      assert FlightOk(states, n, states[n].flights[e.id]);
      BodyCameFromServer(states, n, states[n].flights[e.id], states[n + 1].cache.entries[x]);
    }
  }

  lemma BodyCameFromServer(states: seq<System>, n: nat, f: Flight, e: Entry)
    requires n + 1 < |states| && FlightOk(states, n, f) && f.Answered? && f.response.Body?
    requires e.owner == f.call.target && e.payload == f.response.payload
    requires e.etag == TagOf(e.owner, f.response.header, f.response.bodyTag)
    ensures CameFromServer(states, n + 1, e)
  {
    hide TagOf;
    assert ResponseOk(states, n, f.call, f.response);
  }

  // A 304 for the list says that the server holds a representation with the tag
  // that was asked about. The call returns that representation exactly when the
  // entry it finds in the slot carries this tag.
  lemma ListRevalidatedExactly(states: seq<System>, events: seq<Event>, n: nat, id: nat, ttl: int)
    requires IsRun(states, events, ttl) && n <= |events| && TagsIdentify(states) && TagsAreStable(states)
    requires Consistent(states[n]) && id in states[n].flights && states[n].flights[id].call.target.Listing?
    requires states[n].flights[id].Answered? && states[n].flights[id].response.NotModified?
    requires states[n].cache.list.Some?
    ensures var call := states[n].flights[id].call;
            var e := states[n].cache.entries[states[n].cache.list.value];
            && FinishCall(states[n].cache, call, ttl, NotModified).1 == Ok(e.payload)
            && call.ifNoneMatch.Some? && Matched(states, n, Listing, call.ifNoneMatch.value, call.start)
            && forall j :: 0 <= j <= n && Listing in states[j].server
                           && states[j].server[Listing].header == call.ifNoneMatch
                 ==> (states[j].server[Listing].payload == e.payload <==> call.ifNoneMatch == Some(e.etag))
  {
    hide Next, EntryOk, TagsIdentify, TagsAreStable;
    RunKeeps(states, events, n, ttl, false);
    EntriesCameFromServer(states, events, n, ttl);
    var f := states[n].flights[id];
    var call, e := f.call, states[n].cache.entries[states[n].cache.list.value];
    assert FlightOk(states, n, f) && ResponseOk(states, n, call, NotModified);
    assert e.owner == Listing && CameFromServer(states, n, e);
    forall j | 0 <= j <= n && Listing in states[j].server && states[j].server[Listing].header == call.ifNoneMatch
      ensures states[j].server[Listing].payload == e.payload <==> call.ifNoneMatch == Some(e.etag)
    {
      TagDecides(states, n, j, e, call.ifNoneMatch.value);
    }
  }

  lemma TagDecides(states: seq<System>, n: nat, j: nat, e: Entry, tag: string)
    requires n < |states| && TagsIdentify(states) && TagsAreStable(states) && CameFromServer(states, n, e)
    requires j <= n && tag != "" && e.owner in states[j].server && states[j].server[e.owner].header == Some(tag)
    ensures states[j].server[e.owner].payload == e.payload <==> tag == e.etag
  {
    var m :| 0 <= m <= n && e.owner in states[m].server && states[m].server[e.owner].payload == e.payload
             && TagFor(e.owner, states[m].server[e.owner]) == e.etag;
    assert TagFor(e.owner, states[j].server[e.owner]) == tag;
  }

  // ---------------------------------------------------------------------
  // Overlapping list calls
  // ---------------------------------------------------------------------

  lemma Begins(s: System, id: nat, call: Call, ttl: int)
    requires Consistent(s) && id !in s.flights && BeginCall(s.cache, call.target, false, s.clock) == Asked(call)
    ensures var s' := s.(flights := s.flights[id := Waiting(call)]);
            Next(s, Begin(id, call.target, false), s', ttl) && Consistent(s')
  {
  }

  lemma Serves(s: System, id: nat, call: Call, ttl: int)
    requires Consistent(s) && id in s.flights && s.flights[id] == Waiting(call)
    ensures var s' := s.(flights := s.flights[id := Answered(call, Reply(s.server, call))]);
            Next(s, Serve(id), s', ttl) && Consistent(s')
  {
  }

  lemma Finishes(s: System, id: nat, call: Call, response: Response, ttl: int)
    requires Consistent(s) && id in s.flights && s.flights[id] == Answered(call, response)
    ensures CallOk(s.cache, call)
    ensures var s' := s.(cache := FinishCall(s.cache, call, ttl, response).0, flights := s.flights - {id});
            Next(s, Finish(id), s', ttl) && Consistent(s')
  {
    hide TagOf;
    assert CallOk(s.cache, s.flights[id].call);
  }

  lemma Moves(s: System, now: int, t: Target, r: Resource, ttl: int)
    requires Consistent(s) && s.clock <= now
    ensures Next(s, Tick(now), s.(clock := now), ttl) && Consistent(s.(clock := now))
    ensures Next(s, Change(t, Some(r)), s.(server := s.server[t := r]), ttl)
            && Consistent(s.(server := s.server[t := r]))
  {
  }

  lemma TwoTags(states: seq<System>, a: Resource, b: Resource)
    requires forall i :: 0 <= i < |states| ==>
      states[i].server == map[Listing := a] || states[i].server == map[Listing := b]
    requires a.header == Some("a") && b.header == Some("b")
    ensures TagsIdentify(states)
  {
    assert "a"[0] != "b"[0];
  }

  const WAS := Resource("old", Some("a"), "")
  const NOW := Resource("new", Some("b"), "")
  const FIRST := Call(Listing, None, None, 0)

  // The server moved from `WAS` to `NOW` at time 0 and stayed there.
  ghost predicate Chronicle(s: System) {
    (s.server == map[Listing := WAS] && s.clock == 0) || s.server == map[Listing := NOW]
  }

  ghost predicate Story(states: seq<System>, events: seq<Event>) {
    IsRun(states, events, 10) && forall i :: 0 <= i < |states| ==> Chronicle(states[i])
  }

  lemma Extend(states: seq<System>, events: seq<Event>, e: Event, s: System)
    requires Story(states, events) && Next(states[|events|], e, s, 10) && Chronicle(s)
    ensures Story(states + [s], events + [e])
  {
    hide Next, Chronicle;
    var more, done := states + [s], events + [e];
    forall i | 0 <= i < |done| ensures Next(more[i], done[i], more[i + 1], 10) {
      if i < |events| {
        assert more[i] == states[i] && more[i + 1] == states[i + 1] && done[i] == events[i];
      }
    }
  }

  function Began(): System {
    System(Cache([], map[], None), 0, map[Listing := WAS], map[1 := Answered(FIRST, Body("old", Some("a"), ""))])
  }

  const LATER := Call(Listing, Some(0), Some("b"), 40)

  function Refetched(): System {
    System(Cache([Entry(Listing, "new", "b", 10)], map[], Some(0)), 0, map[Listing := NOW],
           map[1 := Answered(FIRST, Body("old", Some("a"), ""))])
  }

  function Revived(): System {
    System(Cache([Entry(Listing, "new", "b", 10), Entry(Listing, "old", "a", 10)], map[], Some(1)), 40,
           map[Listing := NOW], map[3 := Answered(LATER, NotModified)])
  }

  // A first list call is answered, and waits to resume.
  lemma FirstAnswered() returns (states: seq<System>, events: seq<Event>)
    ensures Story(states, events) && |events| == 2 && |states| == 3 && states[2] == Began() && Consistent(Began())
  {
    hide Next, Consistent;
    var s0 := System(Cache([], map[], None), 0, map[Listing := WAS], map[]);
    assert Consistent(s0) by { EmptyIsConsistent(s0); }
    Begins(s0, 1, FIRST, 10);
    var s1 := s0.(flights := s0.flights[1 := Waiting(FIRST)]);
    Serves(s1, 1, FIRST, 10);
    var s2 := s1.(flights := s1.flights[1 := Answered(FIRST, Body("old", Some("a"), ""))]);
    assert s2.flights == map[1 := Answered(FIRST, Body("old", Some("a"), ""))];
    assert Story([s0], []);
    Extend([s0], [], Begin(1, Listing, false), s1);
    Extend([s0] + [s1], [] + [Begin(1, Listing, false)], Serve(1), s2);
    states, events := [s0] + [s1] + [s2], [] + [Begin(1, Listing, false)] + [Serve(1)];
  }

  // The server changes, and a second list call stores the new list.
  lemma SecondStored() returns (states: seq<System>, events: seq<Event>)
    ensures Story(states, events) && |events| == 6 && |states| == 7 && states[6] == Refetched()
            && Consistent(Refetched())
  {
    hide Next, Consistent, Story;
    var s2 := Began();
    states, events := FirstAnswered();
    Moves(s2, 0, Listing, NOW, 10);
    var s3 := s2.(server := s2.server[Listing := NOW]);
    assert s3.server == map[Listing := NOW];
    Begins(s3, 2, FIRST, 10);
    var s4 := s3.(flights := s3.flights[2 := Waiting(FIRST)]);
    Serves(s4, 2, FIRST, 10);
    var body := Body("new", Some("b"), "");
    var s5 := s4.(flights := s4.flights[2 := Answered(FIRST, body)]);
    Finishes(s5, 2, FIRST, body, 10);
    var s6 := s5.(cache := FinishCall(s5.cache, FIRST, 10, body).0, flights := s5.flights - {2});
    assert s6.flights == Refetched().flights;
    states, events := Told(states, events, Change(Listing, Some(NOW)), s3);
    states, events := Told(states, events, Begin(2, Listing, false), s4);
    states, events := Told(states, events, Serve(2), s5);
    states, events := Told(states, events, Finish(2), s6);
  }

  // A third begins once that entry is old, gets a 304 for it, and then the first resumes.
  lemma ThirdAnswered() returns (states: seq<System>, events: seq<Event>)
    ensures Story(states, events) && |events| == 10 && |states| == 11 && states[10] == Revived()
            && Consistent(Revived())
  {
    hide Next, Consistent, Story;
    var s6 := Refetched();
    states, events := SecondStored();
    Moves(s6, 40, Listing, NOW, 10);
    var s7 := s6.(clock := 40);
    Begins(s7, 3, LATER, 10);
    var s8 := s7.(flights := s7.flights[3 := Waiting(LATER)]);
    Serves(s8, 3, LATER, 10);
    var s9 := s8.(flights := s8.flights[3 := Answered(LATER, NotModified)]);
    var body := Body("old", Some("a"), "");
    Finishes(s9, 1, FIRST, body, 10);
    var s10 := s9.(cache := FinishCall(s9.cache, FIRST, 10, body).0, flights := s9.flights - {1});
    assert s10.flights == Revived().flights;
    states, events := Told(states, events, Tick(40), s7);
    states, events := Told(states, events, Begin(3, Listing, false), s8);
    states, events := Told(states, events, Serve(3), s9);
    states, events := Told(states, events, Finish(1), s10);
  }

  lemma Told(states: seq<System>, events: seq<Event>, e: Event, s: System) returns (more: seq<System>, done: seq<Event>)
    requires Story(states, events) && |states| == |events| + 1 && Next(states[|events|], e, s, 10) && Chronicle(s)
    ensures Story(more, done) && more == states + [s] && done == events + [e]
    ensures |more| == |done| + 1 && more[|done|] == s && done[|events|] == e && more[|events|] == states[|events|]
  {
    hide Next, Chronicle;
    Extend(states, events, e, s);
    more, done := states + [s], events + [e];
  }

  // The list slot is read again after the wait, so a 304 meant for one entry
  // revives another: here the server last held "old" at time 0, and a call that
  // begins at time 40 with a TTL of 10 returns it.
  lemma OverlappingListsGoStale() returns (states: seq<System>, events: seq<Event>)
    ensures IsRun(states, events, 10) && TagsIdentify(states) && |events| == 11
    ensures Consistent(states[10]) && Outcome(states[10], events[10], 10) == Some(Returned(Listing, "old", 40))
    ensures !Fresh(states, 10, Returned(Listing, "old", 40), 10) && !SlotHeld(states[10], events[10])
  {
    hide Next, TagsIdentify;
    assert "old"[0] != "new"[0] && "a"[0] != "b"[0];
    states, events := ThirdAnswered();
    var s10 := Revived();
    Finishes(s10, 3, LATER, NotModified, 10);
    var s11 := s10.(cache := FinishCall(s10.cache, LATER, 10, NotModified).0, flights := s10.flights - {3});
    states, events := Told(states, events, Finish(3), s11);
    TwoTags(states, WAS, NOW);
  }
}
