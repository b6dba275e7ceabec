/** The session view (src/components/SessionView.tsx): which agent states
    count as available, the 20-second watchdog that hangs up on an agent
    that never became available, and the two values handed to the sphere.
    React's effect scheduling is made explicit: a render with the effect's
    dependencies, the timer firing, and the unmount are separate events. */
module SessionView {
  import opened Common

  /** LiveKit's `AgentState`. */
  datatype AgentState =
    | Disconnected | Connecting | PreConnectBuffering | Initializing
    | Listening | Thinking | Speaking

  /** `isAgentAvailable`. */
  predicate IsAgentAvailable(s: AgentState)
  {
    s == Listening || s == Thinking || s == Speaking
  }

  /** The agent is unavailable exactly while it has not yet reached a conversational state. */
  lemma UnavailableStates(s: AgentState)
    ensures !IsAgentAvailable(s) <==> s in {Disconnected, Connecting, PreConnectBuffering, Initializing}
  {
  }

  const WatchdogDelayMilliseconds: int := 20_000
  const TimeoutAlert: string := "Agent timeout"
  const NotJoinedReason: string := "Agent did not join the room. "
  const NotInitializedReason: string := "Agent connected but did not complete initializing. "

  /** What the watchdog does when it gives up: the alert it shows and the
      reason it logs, before disconnecting the room. */
  datatype Timeout = Timeout(alert: string, reason: string)

  /** The timer callback for the agent state its closure captured: nothing
      when the agent is available, otherwise an alert, a reason and a
      disconnect. */
  function WatchdogDecision(captured: AgentState): (d: Option<Timeout>)
    ensures d.Some? <==> !IsAgentAvailable(captured)
    ensures d.Some? ==> d.value.alert == TimeoutAlert
    ensures d.Some? ==> (d.value.reason == NotJoinedReason <==> captured == Connecting)
    ensures d.Some? ==> (d.value.reason == NotInitializedReason <==> captured != Connecting)
  {
    if IsAgentAvailable(captured) then None
    else Some(Timeout(TimeoutAlert, if captured == Connecting then NotJoinedReason else NotInitializedReason))
  }

  /** `isActive={sessionStarted && isAgentAvailable(agentState)}`. */
  function SphereActive(sessionStarted: bool, agentState: AgentState): (active: bool)
    ensures active ==> sessionStarted
    ensures active <==> sessionStarted && agentState in {Listening, Thinking, Speaking}
  {
    sessionStarted && IsAgentAvailable(agentState)
  }

  /** `onActivate={isConnecting ? undefined : handleSessionState}`: whether
      the sphere has a click handler. */
  function SphereClickable(isConnecting: bool): (clickable: bool)
    ensures clickable != isConnecting
  {
    !isConnecting
  }

  /** The watchdog effect's dependency list `[agentState, sessionStarted, room]`;
      the room is known by its identity. */
  datatype Deps = Deps(agentState: AgentState, sessionStarted: bool, room: nat)

  /** The watchdog effect of one mounted view: the dependencies it last ran
      with, and the pending timer, known by the agent state its callback
      captured. */
  class Watchdog {
    var deps: Option<Deps>
    var pending: Option<AgentState>

    /** A timer is pending only while the session is started, and it
        captured the agent state of the latest run. */
    ghost predicate Valid()
      reads this
    {
      pending.Some? ==> deps.Some? && deps.value.sessionStarted && pending.value == deps.value.agentState
    }

    constructor ()
      ensures Valid() && deps.None? && pending.None?
    {
      deps, pending := None, None;
    }

    /** A render with the given dependencies.  When they differ from the
        last run's, React runs the previous cleanup (clearing the pending
        timer) and then the effect, which arms a new timer only when the
        session is started.  `cleared` says a timer was cancelled; `delay`
        is the delay of a newly armed timer. */
    method Render(agentState: AgentState, sessionStarted: bool, room: nat) returns (cleared: bool, delay: Option<int>)
      requires Valid()
      modifies this
      ensures Valid()
      ensures deps == Some(Deps(agentState, sessionStarted, room))
      ensures old(deps) == Some(Deps(agentState, sessionStarted, room)) ==>
        pending == old(pending) && !cleared && delay.None?
      ensures old(deps) != Some(Deps(agentState, sessionStarted, room)) ==>
        && (cleared <==> old(pending).Some?)
        && pending == (if sessionStarted then Some(agentState) else None)
        && delay == (if sessionStarted then Some(WatchdogDelayMilliseconds) else None)
    {
      var next := Deps(agentState, sessionStarted, room);
      if deps == Some(next) {
        return false, None;
      }
      // Cleanup of the previous run.
      cleared := pending.Some?;
      pending := None;
      // The effect itself.
      deps := Some(next);
      if sessionStarted {
        pending := Some(agentState);
        delay := Some(WatchdogDelayMilliseconds);
      } else {
        delay := None;
      }
    }

    /** The pending timer fires.  `timeout` is what it does: None, or the
        alert and reason shown before `disconnect` hangs up the room. */
    method TimerFired() returns (timeout: Option<Timeout>, disconnect: bool)
      requires Valid() && pending.Some?
      modifies this
      ensures Valid() && pending.None? && deps == old(deps)
      ensures timeout == WatchdogDecision(old(pending).value)
      ensures disconnect <==> !IsAgentAvailable(old(deps).value.agentState)
      ensures disconnect ==> old(deps).value.sessionStarted
    {
      timeout := WatchdogDecision(pending.value);
      disconnect := timeout.Some?;
      pending := None;
    }

    /** Unmounting runs the last cleanup: no timer survives it. */
    method Unmount() returns (cleared: bool)
      requires Valid()
      modifies this
      ensures Valid() && pending.None? && deps == old(deps)
      ensures cleared <==> old(pending).Some?
    {
      cleared := pending.Some?;
      pending := None;
    }
  }

  /** The 20-second window restarts on every agent state change: during a
      started session, a render with a new agent state cancels whatever timer
      the previous render left pending and arms a fresh one for the new state. */
  method RestartOnStateChange(w: Watchdog, first: AgentState, second: AgentState, room: nat)
    returns (cleared: bool, delay: Option<int>)
    requires w.Valid() && first != second
    modifies w
    ensures w.Valid() && delay == Some(WatchdogDelayMilliseconds)
    ensures w.pending == Some(second)
  {
    var _, _ := w.Render(first, true, room);
    cleared, delay := w.Render(second, true, room);
  }
}
