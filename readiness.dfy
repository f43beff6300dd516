/**
 * The readiness gate of `init`, as a function of the abstract events that
 * reach one call: `readystatechange` notifications (carrying the document's
 * `readyState` at dispatch time) and the firing of the init timer. Wall-clock
 * time is not modelled; the order of the events is.
 */
module Readiness {
  import opened Wrappers

  /** `document.readyState`. */
  datatype DocState = Loading | Interactive | Complete

  /** The two ways the promise returned by `init` is rejected. */
  datatype InitError =
    | NotInBrowser   // 'This module only runs in the browser.'
    | MaxTimeout     // 'AntiAdblock init max timeout reached'

  /** The state of the promise returned by `init`; once settled it never changes. */
  datatype Settlement = Pending | Resolved | Rejected(error: InitError)

  /** What the host delivers to one `init` call after it returns. */
  datatype Event = ReadyStateChange(state: DocState) | InitTimeoutFired

  /**
   * One `init` call seen from outside: the detector's `ready` flag, whether
   * its timer is still scheduled, and its promise.
   */
  datatype Gate = Gate(ready: bool, timerArmed: bool, outcome: Settlement)

  /** `resolve`/`reject` on a promise that has already settled do nothing. */
  function Settle(current: Settlement, next: Settlement): Settlement
  {
    if current.Pending? then next else current
  }

  /**
   * The invariant of every gate: the timer is scheduled exactly while the
   * promise is pending, and a resolved promise means the detector is ready.
   */
  predicate Consistent(g: Gate)
  {
    (g.timerArmed <==> g.outcome.Pending?) && (g.outcome == Resolved ==> g.ready)
  }

  /**
   * The synchronous part of `init` on a detector whose flag is `ready`, with
   * `document` the host's `readyState`, or `None` when there is no window or document.
   */
  function Launch(ready: bool, document: Option<DocState>): (g: Gate)
    ensures Consistent(g)
    ensures g.ready <==> ready || document == Some(Complete)
    ensures g.outcome == Rejected(NotInBrowser) <==> document.None?
    ensures g.outcome == Resolved <==> document == Some(Complete)
    ensures g.outcome == Pending <==> document.Some? && document != Some(Complete)
  {
    match document
    case None => Gate(ready, false, Rejected(NotInBrowser))
    case Some(state) =>
      if state == Complete then Gate(true, false, Resolved)
      else Gate(ready, true, Pending)
  }

  /** An event that settles a pending gate. */
  predicate Decisive(e: Event)
  {
    e == ReadyStateChange(Complete) || e == InitTimeoutFired
  }

  /** The effect of one event: the `readystatechange` handler or the timer callback. */
  function Step(g: Gate, e: Event): (g': Gate)
    ensures g.ready ==> g'.ready
    ensures !g.outcome.Pending? ==> g'.outcome == g.outcome
    ensures g'.ready != g.ready <==> !g.ready && e == ReadyStateChange(Complete)
    ensures Consistent(g) ==> Consistent(g')
    ensures e.ReadyStateChange? && e.state != Complete ==> g' == g
    ensures e == ReadyStateChange(Complete) ==> g' == Gate(true, false, Settle(g.outcome, Resolved))
    ensures e == InitTimeoutFired && g.timerArmed ==> g' == Gate(g.ready, false, Settle(g.outcome, Rejected(MaxTimeout)))
  {
    match e
    case ReadyStateChange(state) =>
      if state == Complete then Gate(true, false, Settle(g.outcome, Resolved)) else g
    case InitTimeoutFired =>
      if g.timerArmed then Gate(g.ready, false, Settle(g.outcome, Rejected(MaxTimeout))) else g
  }

  /** The events delivered in order. */
  function Run(g: Gate, events: seq<Event>): Gate
    decreases |events|
  {
    if events == [] then g else Run(Step(g, events[0]), events[1..])
  }

  /**
   * How the race between completion and the timer ends, judged only by the
   * first decisive event: `Pending` when there is none.
   */
  function RaceOutcome(events: seq<Event>): (s: Settlement)
    ensures s.Pending? <==> forall i | 0 <= i < |events| :: !Decisive(events[i])
    ensures s != Rejected(NotInBrowser)
    decreases |events|
  {
    if events == [] then Pending
    else if events[0] == ReadyStateChange(Complete) then Resolved
    else if events[0] == InitTimeoutFired then Rejected(MaxTimeout)
    else RaceOutcome(events[1..])
  }

  lemma {:induction false} RaceOutcomeAt(events: seq<Event>, k: nat)
    requires k < |events| && Decisive(events[k])
    requires forall j | 0 <= j < k :: !Decisive(events[j])
    ensures RaceOutcome(events) == if events[k] == InitTimeoutFired then Rejected(MaxTimeout) else Resolved
  {
    if k > 0 {
      assert !Decisive(events[0]);
      RaceOutcomeAt(events[1..], k - 1);
    }
  }

  /** `ready` is only ever set to true: no sequence of events clears it. */
  lemma {:induction false} RunKeepsReady(g: Gate, events: seq<Event>)
    requires g.ready
    ensures Run(g, events).ready
    decreases |events|
  {
    if events != [] {
      RunKeepsReady(Step(g, events[0]), events[1..]);
    }
  }

  /** A settled promise stays settled with the same value. */
  lemma {:induction false} RunSettlesOnce(g: Gate, events: seq<Event>)
    requires !g.outcome.Pending?
    ensures Run(g, events).outcome == g.outcome
    decreases |events|
  {
    if events != [] {
      RunSettlesOnce(Step(g, events[0]), events[1..]);
    }
  }

  /** Every sequence of events keeps the gate invariant. */
  lemma {:induction false} RunConsistent(g: Gate, events: seq<Event>)
    requires Consistent(g)
    ensures Consistent(Run(g, events))
    decreases |events|
  {
    if events != [] {
      RunConsistent(Step(g, events[0]), events[1..]);
    }
  }

  /**
   * The flag ends up set exactly when it was set already or some
   * `readystatechange` reported `complete`, whatever happened to the timer.
   */
  lemma {:induction false} RunReadyIff(g: Gate, events: seq<Event>)
    ensures Run(g, events).ready <==> g.ready || ReadyStateChange(Complete) in events
    decreases |events|
  {
    if events != [] {
      RunReadyIff(Step(g, events[0]), events[1..]);
      assert events == [events[0]] + events[1..];
    }
  }

  /** From a scheduled timer, the first decisive event alone decides the promise. */
  lemma {:induction false} RunArmedFollowsRace(ready: bool, events: seq<Event>)
    ensures Run(Gate(ready, true, Pending), events).outcome == RaceOutcome(events)
    decreases |events|
  {
    var g := Gate(ready, true, Pending);
    if events != [] {
      if Decisive(events[0]) {
        RunSettlesOnce(Step(g, events[0]), events[1..]);
      } else {
        RunArmedFollowsRace(ready, events[1..]);
      }
    }
  }

  /** A document that is already complete when `init` runs: resolved and ready, whatever follows. */
  lemma {:induction false} AlreadyCompleteResolves(ready: bool, events: seq<Event>)
    ensures Run(Launch(ready, Some(Complete)), events) == Gate(true, false, Resolved)
    decreases |events|
  {
    if events != [] {
      assert Step(Gate(true, false, Resolved), events[0]) == Gate(true, false, Resolved);
      AlreadyCompleteResolves(ready, events[1..]);
    }
  }

  /**
   * A document not yet complete: the promise takes the value of the first
   * decisive event, stays pending without one, and the invariant holds.
   */
  lemma InitFollowsRace(ready: bool, state: DocState, events: seq<Event>)
    requires state != Complete
    ensures Run(Launch(ready, Some(state)), events).outcome == RaceOutcome(events)
    ensures Consistent(Run(Launch(ready, Some(state)), events))
  {
    RunArmedFollowsRace(ready, events);
    RunConsistent(Launch(ready, Some(state)), events);
  }

  /**
   * The timer fires before any `complete` notification: the promise is
   * rejected with the timeout error and, at that moment, the flag is what it
   * was. A `complete` arriving later still sets the flag, though the promise
   * stays rejected.
   */
  lemma TimeoutFirstRejects(ready: bool, state: DocState, events: seq<Event>, k: nat)
    requires state != Complete
    requires k < |events| && events[k] == InitTimeoutFired
    requires forall j | 0 <= j < k :: !Decisive(events[j])
    ensures Run(Launch(ready, Some(state)), events[..k + 1]) == Gate(ready, false, Rejected(MaxTimeout))
    ensures Run(Launch(ready, Some(state)), events).outcome == Rejected(MaxTimeout)
    ensures Run(Launch(ready, Some(state)), events).ready <==> ready || ReadyStateChange(Complete) in events[k + 1..]
  {
    var g := Launch(ready, Some(state));
    var prefix := events[..k + 1];
    RaceOutcomeAt(events, k);
    RaceOutcomeAt(prefix, k);
    RunArmedFollowsRace(ready, events);
    RunArmedFollowsRace(ready, prefix);
    RunReadyIff(g, prefix);
    RunReadyIff(g, events);
    assert ReadyStateChange(Complete) !in prefix by {
      forall j | 0 <= j < |prefix| ensures prefix[j] != ReadyStateChange(Complete) {
        assert prefix[j] == events[j];
      }
    }
    assert events == prefix + events[k + 1..];
    RunConsistent(g, prefix);
  }

  /** A `complete` notification before the timer: resolved and ready. */
  lemma CompleteFirstResolves(ready: bool, state: DocState, events: seq<Event>, k: nat)
    requires state != Complete
    requires k < |events| && events[k] == ReadyStateChange(Complete)
    requires forall j | 0 <= j < k :: !Decisive(events[j])
    ensures Run(Launch(ready, Some(state)), events) == Gate(true, false, Resolved)
  {
    var g := Launch(ready, Some(state));
    RaceOutcomeAt(events, k);
    RunArmedFollowsRace(ready, events);
    RunConsistent(g, events);
  }
}
