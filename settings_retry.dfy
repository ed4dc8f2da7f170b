/**
 * The retry loop of `writeSettings`. The device keeps one field,
 * `settingsInterval`, holding the retry timer of the latest write. A write
 * clears that timer, starts a new interval whose closure writes the new
 * payload, and fires one attempt at once; every tick of a live interval fires
 * another attempt; the success callback of ANY attempt clears whatever timer
 * `settingsInterval` holds at that moment and sets it to null. A failed
 * attempt is only logged.
 *
 * Timers and promises are abstract events: `Tick(h)` is interval `h` firing,
 * `AttemptSucceeded(k)` / `AttemptFailed(k)` settle the promise of the k-th
 * `writeAttributes` call.
 */
module SettingsRetry {
  import opened Results
  import opened SettingsMaps

  /** A timer handle returned by `homey.setInterval`. */
  type Handle = nat

  datatype WriterState = WriterState(
    settingsInterval: Option<Handle>,        // `this.settingsInterval`
    timers: map<Handle, DeviceSettings>,     // live intervals, with the payload their closure writes
    nextHandle: Handle,                      // the handle the next setInterval returns
    attempts: seq<DeviceSettings>,           // every writeAttributes call, in issue order
    unsettled: set<nat>                      // attempts whose promise has not settled yet
  )

  datatype WriterEvent =
    | Write(payload: DeviceSettings)   // writeSettings(payload)
    | Tick(handle: Handle)             // interval `handle` fires
    | AttemptSucceeded(attempt: nat)   // the attempt's writeAttributes resolved
    | AttemptFailed(attempt: nat)      // the attempt's writeAttributes rejected (logged)

  /** No timer, no attempt. */
  const Idle := WriterState(None, map[], 0, [], {})

  /** At most the timer in `settingsInterval` is alive, and every handle and attempt index is in range. */
  predicate WellFormed(s: WriterState) {
    && (s.settingsInterval.None? ==> s.timers == map[])
    && (s.settingsInterval.Some? ==>
          s.timers.Keys == {s.settingsInterval.value} && s.settingsInterval.value < s.nextHandle)
    && (forall k :: k in s.unsettled ==> k < |s.attempts|)
  }

  /** One more writeAttributes call with `payload`. */
  function Issue(s: WriterState, payload: DeviceSettings): WriterState {
    s.(attempts := s.attempts + [payload], unsettled := s.unsettled + {|s.attempts|})
  }

  /** The live timers after `clearInterval(this.settingsInterval)`. */
  function ClearCurrent(s: WriterState): map<Handle, DeviceSettings> {
    if s.settingsInterval.Some? then s.timers - {s.settingsInterval.value} else s.timers
  }

  /** The effect of one event. An event for a dead timer or a settled attempt cannot occur and changes nothing. */
  function Step(s: WriterState, e: WriterEvent): WriterState {
    match e
    case Write(payload) =>
      var h := s.nextHandle;
      Issue(s.(settingsInterval := Some(h), timers := ClearCurrent(s)[h := payload], nextHandle := h + 1), payload)
    case Tick(h) =>
      if h in s.timers then Issue(s, s.timers[h]) else s
    case AttemptSucceeded(k) =>
      if k in s.unsettled then s.(settingsInterval := None, timers := ClearCurrent(s), unsettled := s.unsettled - {k})
      else s
    case AttemptFailed(k) =>
      s.(unsettled := s.unsettled - {k})
  }

  /** The state after a sequence of events. */
  function Run(s: WriterState, events: seq<WriterEvent>): WriterState
    decreases |events|
  {
    if events == [] then s else Run(Step(s, events[0]), events[1..])
  }

  /** Every event keeps at most one live timer, and it is the one `settingsInterval` names. */
  lemma StepPreservesWellFormed(s: WriterState, e: WriterEvent)
    requires WellFormed(s)
    ensures WellFormed(Step(s, e))
  {
  }

  lemma {:induction false} RunPreservesWellFormed(s: WriterState, events: seq<WriterEvent>)
    requires WellFormed(s)
    ensures WellFormed(Run(s, events))
    decreases |events|
  {
    if events != [] {
      StepPreservesWellFormed(s, events[0]);
      RunPreservesWellFormed(Step(s, events[0]), events[1..]);
    }
  }

  /**
   * A write cancels the pending retry, starts a fresh interval for the new payload alone,
   * and issues one attempt with it at once.
   */
  lemma WriteReplacesPendingRetry(s: WriterState, payload: DeviceSettings)
    requires WellFormed(s)
    ensures var t := Step(s, Write(payload));
      && t.settingsInterval.Some?
      && t.settingsInterval.value !in s.timers
      && t.timers == map[t.settingsInterval.value := payload]
      && t.attempts == s.attempts + [payload]
  {
  }

  /** `n` copies of `p`. */
  function Repeat(p: DeviceSettings, n: nat): (r: seq<DeviceSettings>)
    ensures |r| == n && forall i :: 0 <= i < n ==> r[i] == p
  {
    if n == 0 then [] else Repeat(p, n - 1) + [p]
  }

  /** How many times interval `h` fires in `events`. */
  function TickCount(events: seq<WriterEvent>, h: Handle): nat {
    if events == [] then 0 else (if events[0] == Tick(h) then 1 else 0) + TickCount(events[1..], h)
  }

  /**
   * Until some attempt succeeds (only ticks of the live interval and failures arrive), every
   * tick re-issues the pending payload once and the retry stays pending.
   */
  lemma {:induction false} RetriesUntilSuccess(s: WriterState, events: seq<WriterEvent>)
    requires WellFormed(s) && s.settingsInterval.Some?
    requires forall i :: 0 <= i < |events| ==> events[i] == Tick(s.settingsInterval.value) || events[i].AttemptFailed?
    ensures Run(s, events).settingsInterval == s.settingsInterval
    ensures Run(s, events).timers == s.timers
    ensures Run(s, events).attempts ==
      s.attempts + Repeat(s.timers[s.settingsInterval.value], TickCount(events, s.settingsInterval.value))
    decreases |events|
  {
    var h := s.settingsInterval.value;
    var p := s.timers[h];
    if events != [] {
      var t := Step(s, events[0]);
      RetriesUntilSuccess(t, events[1..]);
      if events[0] == Tick(h) {
        assert TickCount(events, h) == 1 + TickCount(events[1..], h);
        assert Repeat(p, 1 + TickCount(events[1..], h)) == [p] + Repeat(p, TickCount(events[1..], h));
      } else {
        assert TickCount(events, h) == TickCount(events[1..], h);
      }
    }
  }

  /** No `writeSettings` among the events. */
  predicate NoWrites(events: seq<WriterEvent>) {
    forall i :: 0 <= i < |events| ==> !events[i].Write?
  }

  lemma {:induction false} NoTimerNoAttempts(s: WriterState, events: seq<WriterEvent>)
    requires WellFormed(s) && s.settingsInterval.None? && NoWrites(events)
    ensures Run(s, events).attempts == s.attempts && Run(s, events).settingsInterval.None?
    decreases |events|
  {
    if events != [] {
      NoTimerNoAttempts(Step(s, events[0]), events[1..]);
    }
  }

  /** Once any attempt succeeds, no further attempt is issued until the next write. */
  lemma SuccessStopsRetries(s: WriterState, k: nat, events: seq<WriterEvent>)
    requires WellFormed(s) && k in s.unsettled && NoWrites(events)
    ensures Step(s, AttemptSucceeded(k)).settingsInterval.None?
    ensures Run(Step(s, AttemptSucceeded(k)), events).attempts == s.attempts
  {
    NoTimerNoAttempts(Step(s, AttemptSucceeded(k)), events);
  }

  lemma {:induction false} OnlyPayloadRetried(s: WriterState, p: DeviceSettings, n: nat, events: seq<WriterEvent>)
    requires WellFormed(s) && NoWrites(events) && n <= |s.attempts|
    requires forall h :: h in s.timers ==> s.timers[h] == p
    requires forall i :: n <= i < |s.attempts| ==> s.attempts[i] == p
    ensures |Run(s, events).attempts| >= |s.attempts|
    ensures forall i :: n <= i < |Run(s, events).attempts| ==> Run(s, events).attempts[i] == p
    decreases |events|
  {
    if events != [] {
      var t := Step(s, events[0]);
      OnlyPayloadRetried(t, p, n, events[1..]);
    }
  }

  /** After a write, every attempt issued until the next write carries its payload: a superseded payload is never retried. */
  lemma LatestPayloadOnly(s: WriterState, p: DeviceSettings, events: seq<WriterEvent>)
    requires WellFormed(s) && NoWrites(events)
    ensures var r := Run(Step(s, Write(p)), events);
      forall i :: |s.attempts| <= i < |r.attempts| ==> r.attempts[i] == p
  {
    OnlyPayloadRetried(Step(s, Write(p)), p, |s.attempts|, events);
  }

  /**
   * The success callback clears whatever `settingsInterval` holds: a late success of the first
   * payload's attempt cancels the retry of a newer payload, whose own attempt then fails and is
   * never re-issued.
   */
  lemma LateSuccessCancelsNewerRetry(p1: DeviceSettings, p2: DeviceSettings)
    ensures var r := Run(Idle, [Write(p1), Write(p2), AttemptSucceeded(0), AttemptFailed(1), Tick(1)]);
      r.attempts == [p1, p2] && r.settingsInterval.None? && r.timers == map[]
  {
    var events := [Write(p1), Write(p2), AttemptSucceeded(0), AttemptFailed(1), Tick(1)];
    var s1 := Step(Idle, Write(p1));
    var s2 := Step(s1, Write(p2));
    assert s2.settingsInterval == Some(1) && s2.timers == map[1 := p2] && s2.unsettled == {0, 1};
    var s3 := Step(s2, AttemptSucceeded(0));
    assert s3.timers == map[] && s3.settingsInterval.None?;
    var s4 := Step(s3, AttemptFailed(1));
    var s5 := Step(s4, Tick(1));
    assert s5 == s4;
    assert Run(Idle, events) == Run(s1, events[1..]);
    assert Run(s1, events[1..]) == Run(s2, events[2..]);
    assert Run(s2, events[2..]) == Run(s3, events[3..]);
    assert Run(s3, events[3..]) == Run(s4, events[4..]);
    assert Run(s4, events[4..]) == Run(s5, []);
  }

  /**
   * The same in general: when any older attempt k is still pending, its success after a write of
   * `p` cancels the retry of `p`, and until the next write `p` is never issued again, whatever
   * becomes of its own first attempt.
   */
  lemma LateSuccessCancelsAnyNewerRetry(s: WriterState, p: DeviceSettings, k: nat, events: seq<WriterEvent>)
    requires WellFormed(s) && k in s.unsettled && NoWrites(events)
    ensures var t := Step(Step(s, Write(p)), AttemptSucceeded(k));
      && t.settingsInterval.None? && t.timers == map[]
      && Run(t, events).attempts == s.attempts + [p]
  {
    var w := Step(s, Write(p));
    StepPreservesWellFormed(s, Write(p));
    assert k in w.unsettled;
    SuccessStopsRetries(w, k, events);
  }

  /** The device's retry state: the `settingsInterval` field and the timers and writes it drives. */
  class SettingsWriter {
    var settingsInterval: Option<Handle>
    var timers: map<Handle, DeviceSettings>
    var nextHandle: Handle
    var attempts: seq<DeviceSettings>
    var unsettled: set<nat>

    function State(): WriterState
      reads this
    {
      WriterState(settingsInterval, timers, nextHandle, attempts, unsettled)
    }

    ghost predicate Valid()
      reads this
    {
      WellFormed(State())
    }

    constructor ()
      ensures Valid() && State() == Idle
    {
      settingsInterval, timers, nextHandle, attempts, unsettled := None, map[], 0, [], {};
    }

    /** `writeSettings(newDeviceSettings)`. */
    method WriteSettings(newDeviceSettings: DeviceSettings)
      requires Valid()
      modifies this
      ensures Valid() && State() == Step(old(State()), Write(newDeviceSettings))
    {
      if settingsInterval.Some? {
        timers := timers - {settingsInterval.value};   // clearInterval
      }
      var handle := nextHandle;                        // homey.setInterval(settingsAction, 60000)
      nextHandle := nextHandle + 1;
      timers := timers[handle := newDeviceSettings];
      settingsInterval := Some(handle);
      unsettled := unsettled + {|attempts|};           // setImmediate(settingsAction)
      attempts := attempts + [newDeviceSettings];
    }

    /** Live interval `handle` fires and writes its payload again. */
    method Tick(handle: Handle)
      requires Valid() && handle in timers
      modifies this
      ensures Valid() && State() == Step(old(State()), WriterEvent.Tick(handle))
    {
      unsettled := unsettled + {|attempts|};
      attempts := attempts + [timers[handle]];
    }

    /** The `.then` callback of attempt `k`: clears the timer `settingsInterval` holds now. */
    method AttemptSucceeded(k: nat)
      requires Valid() && k in unsettled
      modifies this
      ensures Valid() && State() == Step(old(State()), WriterEvent.AttemptSucceeded(k))
    {
      if settingsInterval.Some? {
        timers := timers - {settingsInterval.value};
      }
      settingsInterval := None;
      unsettled := unsettled - {k};
    }

    /** The `.catch(this.error)` of attempt `k`: logged, nothing else. */
    method AttemptFailed(k: nat)
      requires Valid() && k in unsettled
      modifies this
      ensures Valid() && State() == Step(old(State()), WriterEvent.AttemptFailed(k))
    {
      unsettled := unsettled - {k};
    }
  }
}
