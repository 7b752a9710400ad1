/** Sequences of ticks and `/maintenance` commands, taken one after the other,
    and what holds of the monitor state and of the embeds sent along them. */
module Runs {
  import opened Wrappers
  import opened Probe
  import opened Notices
  import opened Monitor

  /** One event: a polling tick with its collaborators' outcomes, or the toggle. */
  datatype Event = Tick(channelFound: bool, lookup: Lookup, sendSucceeds: bool) | Toggle

  function Step(s: MonitorState, e: Event): MonitorState {
    match e
    case Tick(channelFound, lookup, _) => NextState(s, channelFound, lookup)
    case Toggle => Toggled(s)
  }

  /** The embed handed to `channel.send` by one event; the toggle's own reply
      goes to the operator, not to the notification channel. */
  function StepAttempt(s: MonitorState, e: Event): Option<Notice> {
    match e
    case Tick(channelFound, lookup, _) => Attempted(s, channelFound, lookup)
    case Toggle => None
  }

  /** The state after all of `es`, applied from the first to the last. */
  function Run(s: MonitorState, es: seq<Event>): MonitorState
    decreases |es|
  {
    if es == [] then s else Step(Run(s, es[..|es| - 1]), es[|es| - 1])
  }

  /** What each event of `es` handed to `channel.send`, one entry per event. */
  function Attempts(s: MonitorState, es: seq<Event>): seq<Option<Notice>>
    decreases |es|
  {
    if es == [] then []
    else
      var before := es[..|es| - 1];
      Attempts(s, before) + [StepAttempt(Run(s, before), es[|es| - 1])]
  }

  function TickCount(es: seq<Event>): nat
    decreases |es|
  {
    if es == [] then 0 else TickCount(es[..|es| - 1]) + (if es[|es| - 1].Tick? then 1 else 0)
  }

  function ToggleCount(es: seq<Event>): nat
    decreases |es|
  {
    if es == [] then 0 else ToggleCount(es[..|es| - 1]) + (if es[|es| - 1].Toggle? then 1 else 0)
  }

  /** The reachability of the last tick of `es` that found the channel, or
      `prior` when there is none. */
  function LastObserved(prior: Option<bool>, es: seq<Event>): Option<bool>
    decreases |es|
  {
    if es == [] then prior
    else
      var e := es[|es| - 1];
      if e.Tick? && e.channelFound then Some(CheckServer(e.lookup).isOnline)
      else LastObserved(prior, es[..|es| - 1])
  }

  /** Every tick adds exactly one to `check_count`, the early return on a
      missing channel included, and nothing else does; from a fresh bot,
      N ticks leave the counter at N. */
  lemma {:induction false} TicksAreCounted(s: MonitorState, es: seq<Event>)
    ensures Run(s, es).checkCount == s.checkCount + TickCount(es)
    ensures (forall i :: 0 <= i < |es| ==> es[i].Tick?) ==> TickCount(es) == |es|
  {
    if es != [] {
      var before := es[..|es| - 1];
      TicksAreCounted(s, before);
      assert forall i :: 0 <= i < |before| ==> before[i] == es[i];
    }
  }

  /** `maintenance_mode` is the initial flag flipped once per `/maintenance`;
      in particular an even number of toggles restores it, and ticks never
      change it. */
  lemma {:induction false} FlagFollowsToggles(s: MonitorState, es: seq<Event>)
    ensures Run(s, es).maintenanceMode == (s.maintenanceMode != (ToggleCount(es) % 2 == 1))
  {
    if es != [] {
      FlagFollowsToggles(s, es[..|es| - 1]);
    }
  }

  /** Toggling twice restores the whole state. */
  lemma ToggleTwiceRestores(s: MonitorState)
    ensures Run(s, [Toggle, Toggle]) == s
  {
  }

  /** `server_was_online` always holds the reachability seen by the most recent
      tick that found the channel, whether or not maintenance mode was on and
      whether or not the send went through; ticks without a channel and
      toggles leave it alone. */
  lemma {:induction false} RecordIsLastObservation(s: MonitorState, es: seq<Event>)
    ensures Run(s, es).serverWasOnline == LastObserved(s.serverWasOnline, es)
  {
    if es != [] {
      RecordIsLastObservation(s, es[..|es| - 1]);
    }
  }

  /** Once a tick has found the channel, the tri-state never returns to unknown. */
  lemma {:induction false} RecordStaysKnown(s: MonitorState, es: seq<Event>)
    requires s.serverWasOnline != None
    ensures Run(s, es).serverWasOnline != None
  {
    if es != [] {
      RecordStaysKnown(s, es[..|es| - 1]);
    }
  }

  /** An embed that is one of the two first-check announcements. */
  predicate IsInitial(n: Option<Notice>) {
    n.Some? && (n.value.kind == InitialOnline || n.value.kind == InitialOffline)
  }

  /** Once the record is known, no later event makes a first-check
      announcement: it is made at most once per process. */
  lemma {:induction false} NoInitialOnceKnown(s: MonitorState, es: seq<Event>)
    requires s.serverWasOnline != None
    ensures |Attempts(s, es)| == |es|
    ensures forall i :: 0 <= i < |es| ==> !IsInitial(Attempts(s, es)[i])
  {
    AttemptsLength(s, es);
    if es != [] {
      var before := es[..|es| - 1];
      NoInitialOnceKnown(s, before);
      RecordStaysKnown(s, before);
    }
  }

  /** One entry per event. */
  lemma {:induction false} AttemptsLength(s: MonitorState, es: seq<Event>)
    ensures |Attempts(s, es)| == |es|
  {
    if es != [] {
      AttemptsLength(s, es[..|es| - 1]);
    }
  }

  /** While maintenance mode stays on, no event sends anything. */
  lemma {:induction false} MaintenanceSilences(s: MonitorState, es: seq<Event>)
    requires s.maintenanceMode
    requires forall i :: 0 <= i < |es| ==> es[i].Tick?
    ensures |Attempts(s, es)| == |es|
    ensures forall i :: 0 <= i < |es| ==> Attempts(s, es)[i] == None
  {
    AttemptsLength(s, es);
    if es != [] {
      var before := es[..|es| - 1];
      assert forall i :: 0 <= i < |before| ==> before[i] == es[i];
      MaintenanceSilences(s, before);
      FlagFollowsToggles(s, before);
      ToggleFreeHasNoToggles(before);
    }
  }

  lemma {:induction false} ToggleFreeHasNoToggles(es: seq<Event>)
    requires forall i :: 0 <= i < |es| ==> es[i].Tick?
    ensures ToggleCount(es) == 0
  {
    if es != [] {
      var before := es[..|es| - 1];
      assert forall i :: 0 <= i < |before| ==> before[i] == es[i];
      ToggleFreeHasNoToggles(before);
    }
  }

  /** After any history, a tick sends an embed exactly when the channel is
      found, maintenance is off at that moment, and the probe disagrees with
      the last observation (or there was none); an alert after an observation
      says which way the server went. */
  lemma {:induction false} SendIffChanged(s: MonitorState, es: seq<Event>, channelFound: bool, lookup: Lookup, sendSucceeds: bool)
    ensures |Attempts(s, es + [Tick(channelFound, lookup, sendSucceeds)])| == |es| + 1
    ensures
      var sent := Attempts(s, es + [Tick(channelFound, lookup, sendSucceeds)])[|es|];
      var seen := LastObserved(s.serverWasOnline, es);
      var online := CheckServer(lookup).isOnline;
      && (sent.Some? <==> channelFound && !Run(s, es).maintenanceMode && seen != Some(online))
      && (sent.Some? && seen != None ==> sent.value.kind == (if online then BackOnline else WentOffline))
  {
    var es' := es + [Tick(channelFound, lookup, sendSucceeds)];
    assert es'[..|es'| - 1] == es;
    AttemptsLength(s, es);
    RecordIsLastObservation(s, es);
  }
}
