// runtime/participation.py: a node's registration attempts, which are begun,
// suspended while Gate is asked, and then finished or cancelled in any order.
module Participation {
  import opened Wrappers
  import opened Strings

  datatype State = Disabled | NotAttempted | Registering | Active | Degraded

  datatype Status = Status(
    state: State,
    nodeName: Option<string>,
    attempts: nat,
    consecutiveFailures: nat,
    lastAttemptAt: Option<int>,
    lastSuccessAt: Option<int>,
    lastError: Option<string>,
    interval: int)
  {
    predicate Ready() {
      state == Active || state == Disabled
    }
  }

  // What an attempt holds while it waits.
  datatype Attempt = Attempt(at: int, nodeName: Option<string>)

  // How it ends: the name of the registration, if one was built, and the error, if any.
  datatype Outcome = Outcome(resolved: Option<string>, error: Option<string>)

  const MAX_ERROR_CHARS := 300

  // _status, and every status on_change was called with
  datatype Participant = Participant(status: Status, notified: seq<Status>)

  // (gate_url or "").strip().rstrip("/")
  function NormalUrl(gateUrl: string): string {
    StripRight(Strip(gateUrl), c => c == '/')
  }

  function Initial(enabled: bool, gateUrl: string, nodeName: Option<string>, interval: int): Participant {
    var state := if enabled && NormalUrl(gateUrl) != "" then NotAttempted else Disabled;
    Participant(Status(state, nodeName, 0, 0, None, None, None, interval), [])
  }

  // _set
  function Set(p: Participant, status: Status): Participant {
    Participant(status, if status != p.status then p.notified + [status] else p.notified)
  }

  // register_once up to its await
  function BeginAttempt(p: Participant, now: int): (Participant, Option<Attempt>) {
    if p.status.state == Disabled then (p, None)
    else
      (if p.status.state == Active then p else Set(p, p.status.(state := Registering)),
       Some(Attempt(now, p.status.nodeName)))
  }

  function NameOf(a: Attempt, o: Outcome): Option<string> {
    if o.resolved.Some? then o.resolved else a.nodeName
  }

  function Truncated(s: string): string {
    if |s| > MAX_ERROR_CHARS then s[..MAX_ERROR_CHARS] else s
  }

  // register_once after its await, on the status as it is by then
  function FinishAttempt(p: Participant, a: Attempt, o: Outcome): Participant {
    var base := p.status;
    match o.error
    case None =>
      Set(p, base.(state := Active, nodeName := NameOf(a, o), attempts := base.attempts + 1, consecutiveFailures := 0,
                   lastAttemptAt := Some(a.at), lastSuccessAt := Some(a.at), lastError := None))
    case Some(error) =>
      Set(p, base.(state := Degraded, nodeName := NameOf(a, o), attempts := base.attempts + 1,
                   consecutiveFailures := base.consecutiveFailures + 1, lastAttemptAt := Some(a.at),
                   lastError := Some(Truncated(error))))
  }

  class NodeParticipation {
    var status: Status
    var notified: seq<Status>

    function Value(): Participant
      reads this
    {
      Participant(status, notified)
    }

    constructor (enabled: bool, gateUrl: string, nodeName: Option<string>, interval: int)
      ensures Value() == Initial(enabled, gateUrl, nodeName, interval)
    {
      status := Initial(enabled, gateUrl, nodeName, interval).status;
      notified := [];
    }

    method SetStatus(next: Status)
      modifies this
      ensures Value() == Set(old(Value()), next)
    {
      var changed := next != status;
      status := next;
      if changed {
        notified := notified + [next];
      }
    }

    method BeginRegister(now: int) returns (attempt: Option<Attempt>)
      modifies this
      ensures (Value(), attempt) == BeginAttempt(old(Value()), now)
    {
      var current := status;
      if current.state == Disabled {
        return None;
      }
      if current.state != Active {
        SetStatus(current.(state := Registering));
      }
      return Some(Attempt(now, current.nodeName));
    }

    method FinishRegister(attempt: Attempt, outcome: Outcome) returns (result: Status)
      modifies this
      ensures Value() == FinishAttempt(old(Value()), attempt, outcome) && result == status
    {
      var name := attempt.nodeName;
      if outcome.resolved.Some? {
        name := outcome.resolved;
      }
      var base := status;
      match outcome.error {
        case None =>
          result := base.(state := Active, nodeName := name, attempts := base.attempts + 1, consecutiveFailures := 0,
                          lastAttemptAt := Some(attempt.at), lastSuccessAt := Some(attempt.at), lastError := None);
        case Some(error) =>
          result := base.(state := Degraded, nodeName := name, attempts := base.attempts + 1,
                          consecutiveFailures := base.consecutiveFailures + 1, lastAttemptAt := Some(attempt.at),
                          lastError := Some(Truncated(error)));
      }
      SetStatus(result);
    }
  }

  // ---------------------------------------------------------------------
  // Every interleaving of attempts
  // ---------------------------------------------------------------------

  datatype Event = Begin(id: nat, now: int) | Finish(id: nat, outcome: Outcome) | Cancel(id: nat)

  datatype Node = Node(participant: Participant, flights: map<nat, Attempt>)

  // One step, if it can happen. A cancelled attempt changes nothing: the
  // exception passes through register_once.
  function After(n: Node, e: Event): Option<Node> {
    match e
    case Begin(id, now) =>
      if id in n.flights then None
      else
        var (p, attempt) := BeginAttempt(n.participant, now);
        Some(Node(p, if attempt.Some? then n.flights[id := attempt.value] else n.flights))
    case Finish(id, outcome) =>
      if id !in n.flights then None
      else Some(Node(FinishAttempt(n.participant, n.flights[id], outcome), n.flights - {id}))
    case Cancel(id) => if id !in n.flights then None else Some(n.(flights := n.flights - {id}))
  }

  ghost predicate IsRun(nodes: seq<Node>, events: seq<Event>) {
    && |nodes| == |events| + 1 && nodes[0].flights == map[]
    && forall i :: 0 <= i < |events| ==> After(nodes[i], events[i]) == Some(nodes[i + 1])
  }

  // A finished attempt and how it ended.
  datatype Done = Done(attempt: Attempt, outcome: Outcome)

  predicate Accepted(d: Done) {
    d.outcome.error.None?
  }

  // The attempts that finish among the first `n` events, in order.
  function Log(nodes: seq<Node>, events: seq<Event>, n: nat): seq<Done>
    requires n <= |events| < |nodes|
  {
    if n == 0 then []
    else
      Log(nodes, events, n - 1)
      + (match events[n - 1]
         case Finish(id, outcome) =>
           if id in nodes[n - 1].flights then [Done(nodes[n - 1].flights[id], outcome)] else []
         case _ => [])
  }

  // Whether an attempt has begun since the last one finished.
  function BegunSince(events: seq<Event>, n: nat): bool
    requires n <= |events|
  {
    if n == 0 || events[n - 1].Finish? then false else events[n - 1].Begin? || BegunSince(events, n - 1)
  }

  function TrailingFailures(log: seq<Done>): nat {
    if log == [] || Accepted(log[|log| - 1]) then 0 else 1 + TrailingFailures(log[..|log| - 1])
  }

  function LastSuccess(log: seq<Done>): Option<int> {
    if log == [] then None
    else if Accepted(log[|log| - 1]) then Some(log[|log| - 1].attempt.at)
    else LastSuccess(log[..|log| - 1])
  }

  // What the status must say, given the attempts that have finished.
  function StatusAfter(first: Status, log: seq<Done>, begun: bool): Status {
    if log == [] then first.(state := if begun then Registering else first.state)
    else
      var last := log[|log| - 1];
      Status(if Accepted(last) then Active else if begun then Registering else Degraded,
             NameOf(last.attempt, last.outcome),
             first.attempts + |log|, TrailingFailures(log), Some(last.attempt.at), LastSuccess(log),
             if Accepted(last) then None else Some(Truncated(last.outcome.error.value)), first.interval)
  }

  // The statuses of the first `n` steps that differ from the one before.
  function Changes(nodes: seq<Node>, n: nat): seq<Status>
    requires n < |nodes|
  {
    if n == 0 then []
    else if nodes[n].participant.status == nodes[n - 1].participant.status then Changes(nodes, n - 1)
    else Changes(nodes, n - 1) + [nodes[n].participant.status]
  }

  // A disabled node stays exactly as it is, and never has an attempt under way.
  lemma {:induction false} DisabledStays(nodes: seq<Node>, events: seq<Event>, n: nat)
    requires IsRun(nodes, events) && n <= |events| && nodes[0].participant.status.state == Disabled
    ensures nodes[n] == nodes[0]
    decreases n
  {
    if n > 0 {
      DisabledStays(nodes, events, n - 1);
      assert After(nodes[n - 1], events[n - 1]) == Some(nodes[n]);
    }
  }

  predicate Untried(s: Status) {
    && s.state == NotAttempted && s.attempts == 0 && s.consecutiveFailures == 0
    && s.lastAttemptAt.None? && s.lastSuccessAt.None? && s.lastError.None?
  }

  lemma BeginTells(first: Status, log: seq<Done>, begun: bool, p: Participant, now: int)
    requires Untried(first) && p.status == StatusAfter(first, log, begun)
    ensures BeginAttempt(p, now).0.status == StatusAfter(first, log, true)
  {
  }

  lemma NothingTold(first: Status)
    requires Untried(first)
    ensures StatusAfter(first, [], false) == first
  {
  }

  lemma FinishTells(first: Status, log: seq<Done>, begun: bool, p: Participant, done: Done)
    requires Untried(first) && p.status == StatusAfter(first, log, begun)
    ensures FinishAttempt(p, done.attempt, done.outcome).status == StatusAfter(first, log + [done], false)
  {
    var more := log + [done];
    assert more[..|more| - 1] == log && more[|more| - 1] == done;
    assert TrailingFailures(more) == if Accepted(done) then 0 else 1 + TrailingFailures(log);
    assert LastSuccess(more) == if Accepted(done) then Some(done.attempt.at) else LastSuccess(log);
  }

  // A node starts disabled exactly when it is told to, or its Gate URL is nothing
  // but slashes between spaces; otherwise it starts untried.
  lemma DisabledExactly(enabled: bool, gateUrl: string, nodeName: Option<string>, interval: int)
    ensures var s := Initial(enabled, gateUrl, nodeName, interval).status;
            && (s.state == Disabled <==> !enabled || AllSlashes(Strip(gateUrl)))
            && (s.state != Disabled ==> Untried(s)) && s.nodeName == nodeName && s.attempts == 0
            && Initial(enabled, gateUrl, nodeName, interval).notified == []
  {
    hide Strip;
    StripRightSpec(Strip(gateUrl), c => c == '/');
  }

  predicate AllSlashes(s: string) {
    forall i :: 0 <= i < |s| ==> s[i] == '/'
  }

  // The name a status shows after an attempt, and how much of an error it keeps.
  lemma AttemptTold(a: Attempt, o: Outcome, error: string)
    ensures NameOf(a, o) == match o.resolved case Some(_) => o.resolved case None => a.nodeName
    ensures Truncated(error) <= error && |Truncated(error)| == if |error| < 300 then |error| else 300
  {
  }

  // Otherwise the status says exactly what the finished attempts, in the order
  // they finished, amount to: no update is lost, whatever overlaps.
  lemma {:induction false} StatusTellsHistory(nodes: seq<Node>, events: seq<Event>, n: nat)
    requires IsRun(nodes, events) && n <= |events|
    requires Untried(nodes[0].participant.status)
    ensures nodes[n].participant.status
            == StatusAfter(nodes[0].participant.status, Log(nodes, events, n), BegunSince(events, n))
    decreases n
  {
    hide StatusAfter, BeginAttempt, FinishAttempt, Untried;
    if n > 0 {
      StatusTellsHistory(nodes, events, n - 1);
      assert After(nodes[n - 1], events[n - 1]) == Some(nodes[n]);
      var first, log := nodes[0].participant.status, Log(nodes, events, n - 1);
      match events[n - 1]
      case Finish(id, outcome) =>
        FinishTells(first, log, BegunSince(events, n - 1), nodes[n - 1].participant,
                    Done(nodes[n - 1].flights[id], outcome));
      case Begin(id, now) =>
        BeginTells(first, log, BegunSince(events, n - 1), nodes[n - 1].participant, now);
        assert log + [] == log;
      case Cancel(_) =>
        assert log + [] == log;
    } else {
      NothingTold(nodes[0].participant.status);
    }
  }

  // The claims a reader of the status relies on.
  lemma StatusMeans(nodes: seq<Node>, events: seq<Event>, n: nat)
    requires IsRun(nodes, events) && n <= |events|
    requires Untried(nodes[0].participant.status)
    ensures var s, log := nodes[n].participant.status, Log(nodes, events, n);
            && (s.state == Active <==> log != [] && Accepted(log[|log| - 1]))
            && (s.Ready() <==> s.state == Active)
            && s.attempts == |log|
            && s.consecutiveFailures <= |log|
            && (forall i :: |log| - s.consecutiveFailures <= i < |log| ==> !Accepted(log[i]))
            && (s.consecutiveFailures < |log| ==> Accepted(log[|log| - 1 - s.consecutiveFailures]))
  {
    StatusTellsHistory(nodes, events, n);
    TrailingMeans(Log(nodes, events, n));
  }

  lemma {:induction false} TrailingMeans(log: seq<Done>)
    ensures TrailingFailures(log) <= |log|
    ensures forall i :: |log| - TrailingFailures(log) <= i < |log| ==> !Accepted(log[i])
    ensures TrailingFailures(log) < |log| ==> Accepted(log[|log| - 1 - TrailingFailures(log)])
  {
    if log != [] && !Accepted(log[|log| - 1]) {
      TrailingMeans(log[..|log| - 1]);
    }
  }

  // A disabled node counts as ready throughout. An enabled node with a URL is ready
  // exactly when the attempt that finished last was accepted, so never before one was.
  lemma ReadyExactly(nodes: seq<Node>, events: seq<Event>, n: nat, enabled: bool, gateUrl: string,
                     nodeName: Option<string>, interval: int)
    requires IsRun(nodes, events) && n <= |events|
    requires nodes[0].participant == Initial(enabled, gateUrl, nodeName, interval)
    ensures var log := Log(nodes, events, n);
            nodes[n].participant.status.Ready()
            <==> !enabled || AllSlashes(Strip(gateUrl)) || (log != [] && log[|log| - 1].outcome.error.None?)
  {
    hide Strip, Initial, Log;
    DisabledExactly(enabled, gateUrl, nodeName, interval);
    if nodes[0].participant.status.state == Disabled {
      DisabledStays(nodes, events, n);
    } else {
      StatusMeans(nodes, events, n);
    }
  }

  // on_change is called with every new status once, in order, and with nothing else.
  lemma {:induction false} NotifiedOfChanges(nodes: seq<Node>, events: seq<Event>, n: nat)
    requires IsRun(nodes, events) && n <= |events|
    ensures nodes[n].participant.notified == nodes[0].participant.notified + Changes(nodes, n)
    decreases n
  {
    if n > 0 {
      NotifiedOfChanges(nodes, events, n - 1);
      assert After(nodes[n - 1], events[n - 1]) == Some(nodes[n]);
    }
  }
}
