// gate/capability_client.py: the TTL and ETag cache of capability discovery.
// A call is two steps with the network in between, so calls interleave.
module CapabilityCache {
  import opened Wrappers
  import opened Strings

  type Payload = string

  // What is asked for: one action's descriptor, or the list.
  datatype Target = Action(name: string) | Listing

  // `owner` is what an entry was fetched for; the client itself does not store it.
  datatype Entry = Entry(owner: Target, payload: Payload, etag: string, expiresAt: int)

  // Entry objects by identity, and the two slots that refer to them.
  datatype Cache = Cache(entries: seq<Entry>, actions: map<string, nat>, list: Option<nat>)

  // What came back. A body carries its own tag, which only the list call uses.
  datatype Response =
    | NotModified
    | Refused                     // status 400 or more, a body that does not parse, or no response
                                  // (a 304 with nothing to revalidate ends as a body that does not parse)
    | Body(payload: Payload, header: Option<string>, bodyTag: string)

  // A request under way: `cached` is the entry seen when it began.
  datatype Call = Call(target: Target, cached: Option<nat>, ifNoneMatch: Option<string>, start: int)

  datatype Begun = Hit(payload: Payload) | Asked(call: Call)

  predicate SlotsOk(c: Cache) {
    && (forall a :: a in c.actions ==> c.actions[a] < |c.entries|)
    && (c.list.Some? ==> c.list.value < |c.entries|)
  }

  function Slot(c: Cache, t: Target): Option<nat> {
    match t
    case Listing => c.list
    case Action(a) => if a in c.actions then Some(c.actions[a]) else None
  }

  // From the start of a call to its request.
  function BeginCall(c: Cache, t: Target, force: bool, now: int): Begun
    requires SlotsOk(c)
  {
    var slot := Slot(c, t);
    if !force && slot.Some? && c.entries[slot.value].expiresAt > now then Hit(c.entries[slot.value].payload)
    else Asked(Call(t, slot, if slot.Some? && !force then Some(c.entries[slot.value].etag) else None, now))
  }

  // get_capability: a name that is blank after stripping is refused.
  function BeginGet(c: Cache, action: string, force: bool, now: int): Result<Begun>
    requires SlotsOk(c)
  {
    if Norm(action) == "" then Err(ValueError) else Ok(BeginCall(c, Action(Norm(action)), force, now))
  }

  // `response.headers.get("etag") or fallback`
  function TagOf(t: Target, header: Option<string>, bodyTag: string): string {
    if header.Some? && header.value != "" then header.value
    else if t.Listing? then bodyTag
    else "W/\"" + t.name + "\""
  }

  // The entry a 304 speaks of: get_capability uses the one it began with,
  // list_capabilities reads the slot again.
  function Revalidated(c: Cache, call: Call): Option<nat> {
    if call.target.Listing? then c.list else call.cached
  }

  // From the response to the result.
  function FinishCall(c: Cache, call: Call, ttl: int, response: Response): (Cache, Result<Payload>)
    requires SlotsOk(c) && (call.cached.Some? ==> call.cached.value < |c.entries|)
  {
    match response
    case NotModified =>
      var hit := Revalidated(c, call);
      if hit.None? then (c, Err(ValueError))
      else
        var e := c.entries[hit.value];
        (c.(entries := c.entries[hit.value := e.(expiresAt := call.start + ttl)]), Ok(e.payload))
    case Refused => (c, Err(GateClient))
    case Body(payload, header, bodyTag) =>
      var id := |c.entries|;
      var made := c.(entries := c.entries + [Entry(call.target, payload, TagOf(call.target, header, bodyTag),
                                                   call.start + ttl)]);
      (match call.target
       case Listing => made.(list := Some(id))
       case Action(a) => made.(actions := made.actions[a := id]),
       Ok(payload))
  }

  function Invalidated(c: Cache): Cache {
    c.(actions := map[], list := None)
  }

  // ---------------------------------------------------------------------
  // The client object
  // ---------------------------------------------------------------------

  class CacheEntry {
    const payload: Payload
    const etag: string
    var expiresAt: int
    ghost const owner: Target
    ghost const id: nat

    constructor (ghost owner: Target, ghost id: nat, payload: Payload, etag: string, expiresAt: int)
      ensures this.owner == owner && this.id == id && this.payload == payload && this.etag == etag
      ensures this.expiresAt == expiresAt
    {
      this.owner := owner;
      this.id := id;
      this.payload := payload;
      this.etag := etag;
      this.expiresAt := expiresAt;
    }

    ghost function Value(): Entry
      reads this
    {
      Entry(owner, payload, etag, expiresAt)
    }
  }

  datatype Pending = Pending(target: Target, cached: CacheEntry?, ifNoneMatch: Option<string>, start: int)

  class GateCapabilityClient {
    const ttl: int
    var listCache: CacheEntry?
    var actionCache: map<string, CacheEntry>
    ghost var entries: seq<CacheEntry>      // every entry ever made, reachable or not

    ghost predicate Known(e: CacheEntry)
      reads this
    {
      e.id < |entries| && entries[e.id] == e
    }

    ghost predicate Valid()
      reads this
    {
      && ttl > 0
      && (forall i :: 0 <= i < |entries| ==> entries[i].id == i)
      && (listCache != null ==> Known(listCache))
      && (forall a :: a in actionCache ==> Known(actionCache[a]))
    }

    ghost function State(): (c: Cache)
      requires Valid()
      reads this, entries
      ensures SlotsOk(c)
    {
      Cache(seq(|entries|, i requires 0 <= i < |entries| reads this, entries => entries[i].Value()),
            map a | a in actionCache :: actionCache[a].id,
            if listCache == null then None else Some(listCache.id))
    }

    // The pending call, as a value.
    ghost function CallOf(p: Pending): Call {
      Call(p.target, if p.cached == null then None else Some(p.cached.id), p.ifNoneMatch, p.start)
    }

    ghost predicate Holds(p: Pending)
      reads this
    {
      p.cached != null ==> Known(p.cached)
    }

    constructor (ttl: int)
      requires ttl > 0
      ensures Valid() && this.ttl == ttl && State() == Cache([], map[], None)
    {
      this.ttl := ttl;
      listCache := null;
      actionCache := map[];
      entries := [];
    }

    method Invalidate()
      requires Valid()
      modifies this`listCache, this`actionCache
      ensures Valid() && State() == Invalidated(old(State()))
    {
      listCache := null;
      actionCache := map[];
    }

    method Begin(t: Target, force: bool, now: int) returns (hit: Option<Payload>, pending: Pending)
      requires Valid()
      ensures hit.Some? <==> BeginCall(State(), t, force, now).Hit?
      ensures hit.Some? ==> BeginCall(State(), t, force, now) == Hit(hit.value)
      ensures hit.None? ==> BeginCall(State(), t, force, now) == Asked(CallOf(pending))
      ensures force ==> hit.None? && pending.ifNoneMatch.None?
      ensures pending.target == t && pending.start == now
      ensures Holds(pending)
    {
      var cached: CacheEntry? := null;
      match t {
        case Listing => cached := listCache;
        case Action(a) => if a in actionCache { cached := actionCache[a]; }
      }
      if cached != null {
        assert State().entries[cached.id] == cached.Value();
      }
      pending := Pending(t, cached, None, now);
      hit := None;
      if !force && cached != null && cached.expiresAt > now {
        hit := Some(cached.payload);
      } else if cached != null && !force {
        pending := Pending(t, cached, Some(cached.etag), now);
      }
    }

    method GetCapability(action: string, force: bool, now: int) returns (r: Result<Option<Payload>>, pending: Pending)
      requires Valid()
      ensures r.Err? <==> BeginGet(State(), action, force, now).Err?
      ensures r == Err(ValueError) <==> Norm(action) == ""
      ensures r.Ok? ==> pending.target == Action(Norm(action)) && (force ==> r.value.None? && pending.ifNoneMatch.None?)
      ensures r.Ok? ==>
        BeginGet(State(), action, force, now)
        == Ok(if r.value.Some? then Hit(r.value.value) else Asked(CallOf(pending)))
      ensures Holds(pending)
    {
      var normalized := Norm(action);
      if normalized == "" {
        return Err(ValueError), Pending(Listing, null, None, now);
      }
      var hit: Option<Payload>;
      hit, pending := Begin(Action(normalized), force, now);
      r := Ok(hit);
    }

    // `entry.expires_at = now + ttl`, on whichever object the call holds
    method Extend(e: CacheEntry, expiresAt: int)
      requires Valid() && Known(e)
      modifies e
      ensures Valid()
      ensures State() == old(State()).(entries := old(State()).entries[e.id := old(e.Value()).(expiresAt := expiresAt)])
    {
      e.expiresAt := expiresAt;
      assert State().entries == old(State()).entries[e.id := e.Value()];
    }

    // CapabilityCacheEntry(...)
    method Make(t: Target, payload: Payload, etag: string, expiresAt: int) returns (made: CacheEntry)
      requires Valid()
      modifies this`entries
      ensures Valid() && old(entries) <= entries && Known(made)
      ensures made.id == |old(State()).entries|
      ensures State() == old(State()).(entries := old(State()).entries + [Entry(t, payload, etag, expiresAt)])
    {
      ghost var before := State();
      made := new CacheEntry(t, |entries|, payload, etag, expiresAt);
      entries := entries + [made];
      assert State().entries == before.entries + [made.Value()];
      assert State().actions == before.actions;
    }

    method Remember(t: Target, e: CacheEntry)
      requires Valid() && Known(e)
      modifies this`listCache, this`actionCache
      ensures Valid()
      ensures State() == if t.Listing? then old(State()).(list := Some(e.id))
                         else old(State()).(actions := old(State()).actions[t.name := e.id])
    {
      ghost var before := State();
      match t {
        case Listing => listCache := e;
        case Action(a) =>
          actionCache := actionCache[a := e];
          assert State().actions == before.actions[a := e.id];
      }
    }

    method Finish(p: Pending, response: Response) returns (r: Result<Payload>)
      requires Valid() && Holds(p)
      modifies this`listCache, this`actionCache, this`entries, entries
      ensures Valid() && old(entries) <= entries
      ensures (State(), r) == FinishCall(old(State()), CallOf(p), ttl, response)
    {
      match response
      case NotModified =>
        var hit := if p.target.Listing? then listCache else p.cached;
        if hit == null {
          return Err(ValueError);
        }
        Extend(hit, p.start + ttl);
        return Ok(hit.payload);
      case Refused =>
        return Err(GateClient);
      case Body(payload, header, bodyTag) =>
        var made := Make(p.target, payload, TagOf(p.target, header, bodyTag), p.start + ttl);
        Remember(p.target, made);
        return Ok(payload);
    }
  }
}
