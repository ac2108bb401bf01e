// runtime/app.py: readiness is bound to the lifecycle and to participation.
module Readiness {
  import opened Wrappers
  import P = Participation

  // app.state, with the participation it refers to. `bound` says whether
  // on_change leads here; an app without registration has no callback.
  datatype Core = Core(bound: bool, lifecycleStarted: bool, runtimeReady: bool, participant: P.Participant)

  // _apply_readiness
  function Apply(c: Core): Core {
    c.(runtimeReady := c.lifecycleStarted && c.participant.status.Ready())
  }

  // A participation step: _set calls on_change exactly when the status changes.
  function Follow(c: Core, next: P.Participant): Core {
    var moved := c.(participant := next);
    if c.bound && next.status != c.participant.status then Apply(moved) else moved
  }

  // create_node_app: the callback is bound with a Gate URL, and otherwise
  // participation is disabled. It can be disabled with the callback bound too,
  // when GATE_REGISTRATION_ENABLED is false or the URL is blank once normalised.
  function Created(register: bool, gateUrl: string, enabled: bool, nodeName: Option<string>, interval: int): Core {
    var bound := register && gateUrl != "";
    Core(bound, false, false,
         if bound then P.Initial(enabled, gateUrl, nodeName, interval) else P.Initial(false, "", None, interval))
  }

  class NodeApp {
    const bound: bool
    const participation: P.NodeParticipation
    var lifecycleStarted: bool
    var runtimeReady: bool

    function Value(): Core
      reads this, participation
    {
      Core(bound, lifecycleStarted, runtimeReady, participation.Value())
    }

    constructor (register: bool, gateUrl: string, enabled: bool, nodeName: Option<string>, interval: int)
      ensures Value() == Created(register, gateUrl, enabled, nodeName, interval) && fresh(participation)
    {
      var bound := register && gateUrl != "";
      this.bound := bound;
      if bound {
        participation := new P.NodeParticipation(enabled, gateUrl, nodeName, interval);
      } else {
        participation := new P.NodeParticipation(false, "", None, interval);
      }
      lifecycleStarted := false;
      runtimeReady := false;
    }

    method ApplyReadiness()
      modifies this
      ensures Value() == Apply(old(Value()))
    {
      runtimeReady := lifecycleStarted && participation.status.Ready();
    }

    // The part of lifespan before startup()
    method Launch()
      modifies this
      ensures Value() == Apply(old(Value()).(lifecycleStarted := false))
    {
      lifecycleStarted := false;
      ApplyReadiness();
    }

    // register_once up to its await, with the callback it may trigger
    method Begin(now: int) returns (attempt: Option<P.Attempt>)
      modifies this, participation
      ensures (Value(), attempt)
              == (Follow(old(Value()), P.BeginAttempt(old(participation.Value()), now).0),
                  P.BeginAttempt(old(participation.Value()), now).1)
    {
      var before := participation.status;
      attempt := participation.BeginRegister(now);
      if bound && participation.status != before {
        ApplyReadiness();
      }
    }

    method Finish(attempt: P.Attempt, outcome: P.Outcome)
      modifies this, participation
      ensures Value() == Follow(old(Value()), P.FinishAttempt(old(participation.Value()), attempt, outcome))
    {
      var before := participation.status;
      var _ := participation.FinishRegister(attempt, outcome);
      if bound && participation.status != before {
        ApplyReadiness();
      }
    }

    // After startup(): participation.start() runs up to its await, or returns at once.
    method Start(now: int) returns (attempt: Option<P.Attempt>)
      modifies this, participation
      ensures (Value(), attempt) == Started(old(Value()), now)
    {
      lifecycleStarted := true;
      attempt := Begin(now);
      if attempt.None? {
        ApplyReadiness();
      }
    }

    // The part of shutdown before stop()
    method Shutdown()
      modifies this
      ensures Value() == Apply(old(Value()).(lifecycleStarted := false))
    {
      lifecycleStarted := false;
      ApplyReadiness();
    }
  }

  function Started(c: Core, now: int): (Core, Option<P.Attempt>) {
    var up := c.(lifecycleStarted := true);
    var (next, attempt) := P.BeginAttempt(up.participant, now);
    var followed := Follow(up, next);
    (if attempt.None? then Apply(followed) else followed, attempt)
  }

  // ---------------------------------------------------------------------
  // Every run, at every suspension point
  // ---------------------------------------------------------------------

  // Where the lifespan is suspended. `Joining` waits for the first attempt.
  datatype Phase = Off | Starting | Joining(id: nat) | Serving | Stopping

  datatype App = App(core: Core, phase: Phase, flights: map<nat, P.Attempt>)

  datatype Event =
    | Launched
    | StartupFailed
    | StartupDone(id: nat, now: int)
    | Begun(id: nat, now: int)                    // the background loop, or a direct call
    | Finished(id: nat, outcome: P.Outcome)
    | Cancelled(id: nat)
    | ShutdownBegun
    | ShutdownDone

  // One step, if it can happen.
  function After(a: App, e: Event): Option<App> {
    match e
    case Launched =>
      if a.phase != Off then None
      else Some(a.(core := Apply(a.core.(lifecycleStarted := false)), phase := Starting))
    case StartupFailed => if a.phase != Starting then None else Some(a.(phase := Off))
    case StartupDone(id, now) =>
      if a.phase != Starting || id in a.flights then None
      else
        var (core, attempt) := Started(a.core, now);
        Some(if attempt.None? then a.(core := core, phase := Serving)
             else App(core, Joining(id), a.flights[id := attempt.value]))
    case Begun(id, now) =>
      if id in a.flights then None
      else
        var (next, attempt) := P.BeginAttempt(a.core.participant, now);
        var flights := if attempt.Some? then a.flights[id := attempt.value] else a.flights;
        Some(a.(core := Follow(a.core, next), flights := flights))
    case Finished(id, outcome) =>
      if id !in a.flights then None
      else
        var core := Follow(a.core, P.FinishAttempt(a.core.participant, a.flights[id], outcome));
        Some(if a.phase == Joining(id) then App(Apply(core), Serving, a.flights - {id})
             else a.(core := core, flights := a.flights - {id}))
    case Cancelled(id) =>
      if id !in a.flights then None
      else Some(a.(flights := a.flights - {id}, phase := if a.phase == Joining(id) then Off else a.phase))
    case ShutdownBegun =>
      if a.phase != Serving then None
      else Some(a.(core := Apply(a.core.(lifecycleStarted := false)), phase := Stopping))
    case ShutdownDone => if a.phase != Stopping then None else Some(a.(phase := Off))
  }

  ghost predicate IsRun(apps: seq<App>, events: seq<Event>, register: bool, gateUrl: string, enabled: bool,
                        nodeName: Option<string>, interval: int) {
    && |apps| == |events| + 1 && apps[0] == App(Created(register, gateUrl, enabled, nodeName, interval), Off, map[])
    && forall i :: 0 <= i < |events| ==> After(apps[i], events[i]) == Some(apps[i + 1])
  }

  // An app that is ready is started and participates.
  predicate NeverOverstates(c: Core) {
    c.runtimeReady ==> c.lifecycleStarted && c.participant.status.Ready()
  }

  predicate Honest(a: App) {
    && NeverOverstates(a.core)
    && (a.phase.Serving? ==> a.core.lifecycleStarted && (a.core.runtimeReady <==> a.core.participant.status.Ready()))
    && (a.phase.Joining? ==> a.core.lifecycleStarted)
    && (a.phase.Starting? || a.phase.Stopping? ==> !a.core.lifecycleStarted)
    && (!a.core.bound ==> a.core.participant.status.state == P.Disabled)
  }

  lemma FollowHonest(c: Core, next: P.Participant)
    requires NeverOverstates(c)
    requires !c.bound ==> next == c.participant
    ensures NeverOverstates(Follow(c, next))
    ensures (c.runtimeReady <==> c.lifecycleStarted && c.participant.status.Ready())
            ==> (Follow(c, next).runtimeReady <==> c.lifecycleStarted && next.status.Ready())
  {
  }

  lemma StepHonest(a: App, e: Event)
    requires Honest(a) && After(a, e).Some?
    requires !a.core.bound ==> a.flights == map[]
    ensures Honest(After(a, e).value)
    ensures var b := After(a, e).value; b.core.bound == a.core.bound && (!b.core.bound ==> b.flights == map[])
  {
    match e
    case Begun(id, now) => FollowHonest(a.core, P.BeginAttempt(a.core.participant, now).0);
    case Finished(id, outcome) =>
      FollowHonest(a.core, P.FinishAttempt(a.core.participant, a.flights[id], outcome));
    case StartupDone(id, now) =>
      FollowHonest(a.core.(lifecycleStarted := true), P.BeginAttempt(a.core.participant, now).0);
    case _ =>
  }

  // At every suspension point of every run, readiness does not overstate
  // participation; from the end of start() until shutdown it states it exactly.
  lemma {:induction false} ReadinessHolds(apps: seq<App>, events: seq<Event>, register: bool, gateUrl: string,
                                          enabled: bool, nodeName: Option<string>, interval: int, n: nat)
    requires IsRun(apps, events, register, gateUrl, enabled, nodeName, interval) && n <= |events|
    ensures Honest(apps[n])
    ensures apps[n].core.bound == (register && gateUrl != "") && (!apps[n].core.bound ==> apps[n].flights == map[])
    decreases n
  {
    hide Honest, After;
    if n > 0 {
      ReadinessHolds(apps, events, register, gateUrl, enabled, nodeName, interval, n - 1);
      assert After(apps[n - 1], events[n - 1]) == Some(apps[n]);
      StepHonest(apps[n - 1], events[n - 1]);
    } else {
      CreatedHonest(register, gateUrl, enabled, nodeName, interval);
    }
  }

  lemma CreatedHonest(register: bool, gateUrl: string, enabled: bool, nodeName: Option<string>, interval: int)
    ensures Honest(App(Created(register, gateUrl, enabled, nodeName, interval), Off, map[]))
  {
  }
}
