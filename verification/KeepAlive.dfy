/** Connection keep-alive (keepalive.go and connectionKeepAlive in server.go): the
    SessionKeepAlive object, and the timed protocol of ticker loop, probe goroutine, request
    loops and channel forwarders around it. */
module KeepAlive {
  import opened Basics
  import Channels

  type Chan = Channels.Chan
  type Time = int

  datatype Metrics = Metrics(handlerCalled: nat, replyReceived: nat, serverRequested: nat)

  /** `nextTick` is when the ticker fires next; without a ticker (no positive interval) it means nothing. */
  datatype Ka = Ka(interval: int, countMax: int, lastReceived: Time, nextTick: Time, metrics: Metrics, closed: bool)

  function Noted(k: Ka, now: Time): Ka {
    if k.interval > 0 && !k.closed then k.(lastReceived := now, nextTick := now + k.interval) else k
  }

  function AfterReset(k: Ka, now: Time): Ka {
    Noted(k.(metrics := k.metrics.(replyReceived := k.metrics.replyReceived + 1)), now)
  }

  function CountedCallback(k: Ka): Ka {
    k.(metrics := k.metrics.(handlerCalled := k.metrics.handlerCalled + 1))
  }

  function CountedProbe(k: Ka): Ka {
    k.(metrics := k.metrics.(serverRequested := k.metrics.serverRequested + 1))
  }

  predicate TimeIsUpAt(k: Ka, now: Time) {
    k.lastReceived + k.countMax * k.interval < now
  }

  /** `bumps` are the times of all activity recorded so far, the creation first. */
  predicate Recorded(k: Ka, bumps: seq<Time>) {
    && bumps != [] && bumps[|bumps| - 1] == k.lastReceived
    && forall i :: 0 <= i < |bumps| ==> bumps[i] <= k.lastReceived
  }

  /** No activity was recorded in the countMax intervals before `now`. */
  predicate SilentBefore(bumps: seq<Time>, k: Ka, now: Time) {
    forall i :: 0 <= i < |bumps| ==> bumps[i] + k.countMax * k.interval < now
  }

  class SessionKeepAlive {
    const interval: int
    const countMax: int
    var ticking: bool
    var nextTick: Time
    var lastReceived: Time
    var metrics: Metrics
    var closed: bool
    ghost var bumps: seq<Time>

    ghost function View(): Ka
      reads this
    {
      Ka(interval, countMax, lastReceived, nextTick, metrics, closed)
    }

    ghost predicate Valid()
      reads this
    {
      ticking == (interval > 0) && Recorded(View(), bumps)
    }

    /** Activity counts until Close, and never without a ticker. */
    ghost predicate Listens()
      reads this
    {
      interval > 0 && !closed
    }

    constructor (interval: int, countMax: int, now: Time)
      ensures Valid() && View() == Ka(interval, countMax, now, now + interval, Metrics(0, 0, 0), false)
      ensures bumps == [now]
    {
      this.interval, this.countMax := interval, countMax;
      ticking := interval > 0;
      nextTick, lastReceived := now + interval, now;
      metrics, closed := Metrics(0, 0, 0), false;
      bumps := [now];
    }

    /** The clock does not run backwards. */
    method NotePeerActivity(now: Time)
      requires Valid() && lastReceived <= now
      modifies this
      ensures Valid() && View() == Noted(old(View()), now)
      ensures bumps == old(bumps) + (if old(Listens()) then [now] else [])
      ensures old(Listens()) ==> forall t: Time :: SilentBefore(bumps, View(), t) <==> now + countMax * interval < t
    {
      if ticking && !closed {
        lastReceived := now;
        nextTick := now + interval;
        bumps := bumps + [now];
      }
    }

    method Reset(now: Time)
      requires Valid() && lastReceived <= now
      modifies this
      ensures Valid() && View() == AfterReset(old(View()), now)
      ensures bumps == old(bumps) + (if old(Listens()) then [now] else [])
      ensures old(Listens()) ==> forall t: Time :: SilentBefore(bumps, View(), t) <==> now + countMax * interval < t
    {
      metrics := metrics.(replyReceived := metrics.replyReceived + 1);
      if ticking && !closed {
        lastReceived := now;
        nextTick := now + interval;
        bumps := bumps + [now];
      }
    }

    /** Two lock sections, with nothing in between here; the protocol below interleaves them. */
    method RequestHandlerCallback(now: Time)
      requires Valid() && lastReceived <= now
      modifies this
      ensures Valid() && View() == AfterReset(CountedCallback(old(View())), now)
      ensures bumps == old(bumps) + (if old(Listens()) then [now] else [])
    {
      metrics := metrics.(handlerCalled := metrics.handlerCalled + 1);
      Reset(now);
    }

    method ServerRequestedKeepAliveCallback()
      requires Valid()
      modifies this
      ensures Valid() && View() == CountedProbe(old(View())) && bumps == old(bumps)
    {
      metrics := metrics.(serverRequested := metrics.serverRequested + 1);
    }

    /** True exactly when no recorded activity lies in the countMax intervals before `now`. */
    method TimeIsUp(now: Time) returns (up: bool)
      requires Valid()
      ensures up <==> SilentBefore(bumps, View(), now)
      ensures up == TimeIsUpAt(View(), now)
    {
      up := lastReceived + countMax * interval < now;
      assert bumps[|bumps| - 1] == lastReceived;
    }

    /** Stopping the ticker and setting the flag that later bumps look at. */
    method Close()
      requires Valid()
      modifies this
      ensures Valid() && View() == old(View()).(closed := true) && bumps == old(bumps)
    {
      closed := true;
    }
  }

  // ---------------------------------------------------------------- the protocol

  /** A timeout: when TimeIsUp answered true and how many bumps were recorded by then; when
      the transport was closed and how many were recorded by then. */
  datatype Timeout = Timeout(checked: Time, seen: nat, closed: Time, total: nat)

  /** The ticker loop: waiting in its select; holding the tick that was due at `due`; about to
      close the transport; about to take the probe slot; gone, after a timeout or not. */
  datatype Loop =
    | Waiting | Ticked(due: Time) | Closing(checked: Time, seen: nat) | Acquiring | Stopped(timeout: Option<Timeout>)

  /** A probe goroutine, from its start to the release of the slot. */
  datatype Probe =
    | Spawned | Counted | OnChannel(ch: Chan) | FailedOn(ch: Chan) | NeedsGlobal | OnGlobal | Answered | Releasing

  /** What a probe does, in order: the answer of any(); a channel request that got no reply, and
      the remove that follows; a global request; a reply, or none to a global request; the call
      of Reset; the release of the slot. */
  datatype ProbeEvent =
    | Picked(choice: Option<Chan>) | SendFailed(failed: Chan) | Dropped(dropped: Chan) | SentGlobal
    | Replied | NoReply | WasReset | Released

  /** `periods` counts the ticker periods begun since the last bump; `bumps` are the times of
      all recorded activity, the creation first; `midCallbacks` are the request callbacks
      between their two lock sections. */
  datatype State = State(
    now: Time, ka: Ka, periods: nat, bumps: seq<Time>,
    loop: Loop, done: bool, slot: nat, probes: seq<Probe>, chans: Channels.State,
    log: seq<ProbeEvent>, midCallbacks: nat, successes: nat, failures: nat, externalResets: nat)

  /** connectionKeepAlive returns at once unless both settings are positive. */
  predicate Config(interval: int, countMax: int) {
    interval > 0 && countMax > 0
  }

  function Start(interval: int, countMax: int, now: Time): State {
    State(now, Ka(interval, countMax, now, now + interval, Metrics(0, 0, 0), false), 1, [now],
          Waiting, false, 0, [], Channels.INITIAL, [], 0, 0, 0, 0)
  }

  datatype Action =
    | Advance(to: Time)
    | TakeTick | CheckTime | CloseTransport | TrySlot | SeeDone
    | ProbeStep(i: nat, ok: bool)        // `ok`: an SSH reply came back, positive or negative
    | PeerRequest                        // the loop of the connection or of a session takes a request
    | CallbackBegins | CallbackResets
    | ExternalReset
    | ChannelStep(a: Channels.Action)    // any step of the channels but the probe's remove
    | ConnectionEnds | KeepAliveCloses

  predicate Enabled(s: State, a: Action) {
    match a
    case Advance(to) => s.now < to
    case TakeTick => s.loop.Waiting? && !s.ka.closed && s.ka.nextTick <= s.now
    case CheckTime => s.loop.Ticked?
    case CloseTransport => s.loop.Closing?
    case TrySlot => s.loop.Acquiring?
    case SeeDone => s.loop.Waiting? && s.done
    case ProbeStep(i, _) => i < |s.probes|
    case PeerRequest => true
    case CallbackBegins => true
    case CallbackResets => s.midCallbacks > 0
    case ExternalReset => true
    case ChannelStep(step) => !step.ProbeRemoves? && Channels.Enabled(s.chans, step)
    case ConnectionEnds => !s.done
    case KeepAliveCloses => s.done && !s.ka.closed
  }

  function Bumped(s: State, k: Ka): State {
    if s.ka.closed then s.(ka := k) else s.(ka := k, periods := 1, bumps := s.bumps + [s.now])
  }

  /** How many further periods have passed when a tick is taken late; the ticker drops those ticks. */
  function Skipped(s: State): nat
    requires s.ka.interval > 0 && s.ka.nextTick <= s.now
  {
    (s.now - s.ka.nextTick) / s.ka.interval
  }

  /** The answer of any(). */
  function Pick(chans: seq<Chan>): Option<Chan> {
    if chans == [] then None else Some(chans[0])
  }

  function EventOf(p: Probe, pick: Option<Chan>, ok: bool): seq<ProbeEvent> {
    match p
    case Spawned => []
    case Counted => [Picked(pick)]
    case OnChannel(c) => [if ok then Replied else SendFailed(c)]
    case FailedOn(c) => [Dropped(c)]
    case NeedsGlobal => [SentGlobal]
    case OnGlobal => [if ok then Replied else NoReply]
    case Answered => [WasReset]
    case Releasing => [Released]
  }

  /** Where the probe stands next; None is its end. */
  function NextProbe(p: Probe, pick: Option<Chan>, ok: bool): Option<Probe> {
    match p
    case Spawned => Some(Counted)
    case Counted => Some(if pick.None? then NeedsGlobal else OnChannel(pick.value))
    case OnChannel(c) => Some(if ok then Answered else FailedOn(c))
    case FailedOn(_) => Some(NeedsGlobal)
    case NeedsGlobal => Some(OnGlobal)
    case OnGlobal => Some(if ok then Answered else Releasing)
    case Answered => Some(Releasing)
    case Releasing => None
  }

  function StepProbe(s: State, i: nat, ok: bool): State
    requires i < |s.probes|
  {
    var p, pick := s.probes[i], Pick(s.chans.chans);
    var next := NextProbe(p, pick, ok);
    var moved := if next.Some? then s.probes[i := next.value] else s.probes[..i] + s.probes[i + 1..];
    var t := s.(probes := moved, log := s.log + EventOf(p, pick, ok));
    match p
    case Spawned => t.(ka := CountedProbe(s.ka))
    case FailedOn(c) =>
      t.(chans := if c in s.chans.added then Channels.Apply(s.chans, Channels.ProbeRemoves(c)) else s.chans)
    case OnGlobal => if ok then t else t.(failures := s.failures + 1)
    case Answered => Bumped(t, AfterReset(s.ka, s.now)).(successes := s.successes + 1)
    case Releasing => t.(slot := if s.slot > 0 then s.slot - 1 else 0)
    case _ => t
  }

  function Apply(s: State, a: Action): (t: State)
    requires Config(s.ka.interval, s.ka.countMax) && Enabled(s, a)
    ensures t.ka.interval == s.ka.interval && t.ka.countMax == s.ka.countMax
  {
    match a
    case Advance(to) => s.(now := to)
    case TakeTick =>
      s.(loop := Ticked(s.ka.nextTick),
         ka := s.ka.(nextTick := s.ka.nextTick + (1 + Skipped(s)) * s.ka.interval),
         periods := s.periods + 1 + Skipped(s))
    case CheckTime => s.(loop := if TimeIsUpAt(s.ka, s.now) then Closing(s.now, |s.bumps|) else Acquiring)
    case CloseTransport => s.(loop := Stopped(Some(Timeout(s.loop.checked, s.loop.seen, s.now, |s.bumps|))))
    case TrySlot =>
      if s.slot < 1 then s.(loop := Waiting, slot := s.slot + 1, probes := s.probes + [Spawned])
      else s.(loop := Waiting)
    case SeeDone => s.(loop := Stopped(None))
    case ProbeStep(i, ok) => StepProbe(s, i, ok)
    case PeerRequest => Bumped(s, Noted(s.ka, s.now))
    case CallbackBegins => s.(ka := CountedCallback(s.ka), midCallbacks := s.midCallbacks + 1)
    case CallbackResets => Bumped(s, AfterReset(s.ka, s.now)).(midCallbacks := s.midCallbacks - 1)
    case ExternalReset => Bumped(s, AfterReset(s.ka, s.now)).(externalResets := s.externalResets + 1)
    case ChannelStep(step) =>
      var t := if step.Note? then Bumped(s, Noted(s.ka, s.now)) else s;
      t.(chans := Channels.Apply(s.chans, step))
    case ConnectionEnds => s.(done := true)
    case KeepAliveCloses => s.(ka := s.ka.(closed := true))
  }

  // ---------------------------------------------------------------- invariants

  predicate Timing(s: State) {
    && Config(s.ka.interval, s.ka.countMax)
    && s.periods >= 1 && s.ka.nextTick == s.ka.lastReceived + s.periods * s.ka.interval
    && Recorded(s.ka, s.bumps) && s.ka.lastReceived <= s.now
    && (s.ka.closed ==> s.done)
  }

  /** A probe that has counted itself and not yet succeeded or failed. */
  predicate Busy(p: Probe) {
    !p.Spawned? && !p.Releasing?
  }

  predicate Last(log: seq<ProbeEvent>, e: ProbeEvent) {
    log != [] && log[|log| - 1] == e
  }

  /** No probe has begun, or the last one has ended. */
  predicate BetweenProbes(log: seq<ProbeEvent>) {
    log == [] || Last(log, Released)
  }

  /** What may come next in the log: the course of one probe after another. */
  predicate Follows(log: seq<ProbeEvent>, e: ProbeEvent) {
    match e
    case Picked(_) => BetweenProbes(log)
    case SendFailed(c) => Last(log, Picked(Some(c)))
    case Dropped(c) => Last(log, SendFailed(c))
    case SentGlobal => Last(log, Picked(None)) || (log != [] && log[|log| - 1].Dropped?)
    case Replied => Last(log, SentGlobal) || (log != [] && log[|log| - 1].Picked? && log[|log| - 1] != Picked(None))
    case NoReply => Last(log, SentGlobal)
    case WasReset => Last(log, Replied)
    case Released => Last(log, WasReset) || Last(log, NoReply)
  }

  predicate Orderly(log: seq<ProbeEvent>) {
    forall i :: 0 <= i < |log| ==> Follows(log[..i], log[i])
  }

  /** How the log ends while a probe stands at `p`. */
  predicate ProbeLogged(p: Probe, log: seq<ProbeEvent>) {
    match p
    case Spawned | Counted => BetweenProbes(log)
    case OnChannel(c) => Last(log, Picked(Some(c)))
    case FailedOn(c) => Last(log, SendFailed(c))
    case NeedsGlobal => Last(log, Picked(None)) || (log != [] && log[|log| - 1].Dropped?)
    case OnGlobal => Last(log, SentGlobal)
    case Answered => Last(log, Replied)
    case Releasing => Last(log, WasReset) || Last(log, NoReply)
  }

  predicate Counting(s: State) {
    && |s.probes| == s.slot <= 1
    && s.ka.metrics.serverRequested
       == s.successes + s.failures + (if s.probes != [] && Busy(s.probes[0]) then 1 else 0)
    && s.ka.metrics.replyReceived + s.midCallbacks == s.ka.metrics.handlerCalled + s.successes + s.externalResets
  }

  /** The log is as far as the probe is, and a probe is at a channel that was in the set. */
  predicate Choosing(s: State) {
    if s.probes == [] then BetweenProbes(s.log)
    else
      && ProbeLogged(s.probes[0], s.log)
      && (s.probes[0].OnChannel? || s.probes[0].FailedOn? ==> s.probes[0].ch in s.chans.added)
  }

  /** Exactly the channels whose send failed have been removed by a probe. */
  ghost predicate DroppedAgree(s: State) {
    forall c :: c in s.chans.failed <==> Dropped(c) in s.log
  }

  ghost predicate Inv(s: State) {
    Timing(s) && Counting(s) && Choosing(s) && Orderly(s.log) && DroppedAgree(s) && Channels.Inv(s.chans)
  }

  lemma Late(periods: nat, extra: nat, interval: int)
    ensures (periods + extra) * interval == periods * interval + extra * interval
  {
  }

  lemma BumpKeepsTiming(s: State, k: Ka)
    requires Timing(s)
    requires k == Noted(s.ka, s.now).(metrics := k.metrics)
    ensures Timing(Bumped(s, k))
  {
  }

  /** The bump that a step records, if any. */
  function BumpOf(s: State, a: Action): Option<Ka>
    requires Enabled(s, a)
  {
    match a
    case PeerRequest => Some(Noted(s.ka, s.now))
    case CallbackResets => Some(AfterReset(s.ka, s.now))
    case ExternalReset => Some(AfterReset(s.ka, s.now))
    case ChannelStep(step) => if step.Note? then Some(Noted(s.ka, s.now)) else None
    case ProbeStep(i, _) => if s.probes[i].Answered? then Some(AfterReset(s.ka, s.now)) else None
    case _ => None
  }

  predicate LoopStep(a: Action) {
    a.TakeTick? || a.CheckTime? || a.CloseTransport? || a.TrySlot? || a.SeeDone? || a.Advance?
  }

  /** Nothing that the ticker loop looks at differs. */
  predicate SameClockwork(s: State, t: State) {
    && t.now == s.now && t.periods == s.periods && t.bumps == s.bumps && t.loop == s.loop && t.done == s.done
    && t.ka == s.ka.(metrics := t.ka.metrics)
  }

  lemma BumpEffect(s: State, a: Action)
    requires Config(s.ka.interval, s.ka.countMax) && Enabled(s, a) && BumpOf(s, a).Some?
    ensures SameClockwork(Bumped(s, BumpOf(s, a).value), Apply(s, a))
    ensures BumpOf(s, a).value == Noted(s.ka, s.now).(metrics := BumpOf(s, a).value.metrics)
  {
  }

  lemma PassiveEffect(s: State, a: Action)
    requires Config(s.ka.interval, s.ka.countMax) && Enabled(s, a) && BumpOf(s, a).None? && !LoopStep(a)
    requires !a.ConnectionEnds? && !a.KeepAliveCloses?
    ensures SameClockwork(s, Apply(s, a))
  {
  }

  lemma LoopKeepsTiming(s: State, a: Action)
    requires Timing(s) && Enabled(s, a) && LoopStep(a)
    ensures Timing(Apply(s, a))
  {
    if a.TakeTick? { Late(s.periods, 1 + Skipped(s), s.ka.interval); }
  }

  lemma ClockworkDecidesTiming(s: State, t: State)
    requires Timing(s) && SameClockwork(s, t)
    ensures Timing(t)
  {
  }

  lemma ApplyKeepsTiming(s: State, a: Action)
    requires Timing(s) && Enabled(s, a)
    ensures Timing(Apply(s, a))
  {
    if LoopStep(a) {
      LoopKeepsTiming(s, a);
    } else if BumpOf(s, a).Some? {
      BumpEffect(s, a);
      BumpKeepsTiming(s, BumpOf(s, a).value);
      ClockworkDecidesTiming(Bumped(s, BumpOf(s, a).value), Apply(s, a));
    } else if !a.ConnectionEnds? && !a.KeepAliveCloses? {
      PassiveEffect(s, a);
      ClockworkDecidesTiming(s, Apply(s, a));
    }
  }

  lemma OneProbe(s: State, ok: bool)
    requires |s.probes| == 1
    ensures var t, next := StepProbe(s, 0, ok), NextProbe(s.probes[0], Pick(s.chans.chans), ok);
            && t.probes == (if next.Some? then [next.value] else [])
            && t.log == s.log + EventOf(s.probes[0], Pick(s.chans.chans), ok)
            && t.slot == (if next.None? && s.slot > 0 then s.slot - 1 else s.slot)
  {
  }

  lemma ProbeKeepsCounting(s: State, ok: bool)
    requires Counting(s) && s.probes != []
    ensures Counting(StepProbe(s, 0, ok))
  {
    OneProbe(s, ok);
  }

  lemma BumpKeepsCounting(s: State, a: Action)
    requires Timing(s) && Counting(s) && Enabled(s, a) && BumpOf(s, a).Some? && !a.ProbeStep?
    ensures Counting(Apply(s, a))
  {
  }

  lemma ApplyKeepsCounting(s: State, a: Action)
    requires Timing(s) && Counting(s) && Enabled(s, a)
    ensures Counting(Apply(s, a))
  {
    if a.ProbeStep? {
      ProbeKeepsCounting(s, a.ok);
    } else if BumpOf(s, a).Some? {
      BumpKeepsCounting(s, a);
    } else if a.TrySlot? {
      assert s.slot < 1 ==> s.probes == [];
    } else {
      assert Apply(s, a).probes == s.probes && Apply(s, a).slot == s.slot;
    }
  }

  /** A probe's next event may follow, and takes the log to where the probe then stands. */
  lemma ProbeFollows(p: Probe, log: seq<ProbeEvent>, pick: Option<Chan>, ok: bool)
    requires ProbeLogged(p, log)
    ensures var events, next := EventOf(p, pick, ok), NextProbe(p, pick, ok);
            && (events != [] ==> events == [events[0]] && Follows(log, events[0]))
            && if next.Some? then ProbeLogged(next.value, log + events) else BetweenProbes(log + events)
  {
    assert log + [] == log;
  }

  lemma OrderlyGrows(log: seq<ProbeEvent>, e: ProbeEvent)
    requires Orderly(log) && Follows(log, e)
    ensures Orderly(log + [e])
  {
    forall i | 0 <= i < |log + [e]| ensures Follows((log + [e])[..i], (log + [e])[i]) {
      assert (log + [e])[..i] == if i < |log| then log[..i] else log;
    }
  }

  /** What any() answers is a channel that was added. */
  predicate FirstAdded(s: Channels.State) {
    s.chans != [] ==> s.chans[0] in s.added
  }

  lemma FirstIn(s: Channels.State)
    requires Channels.Inv(s)
    ensures FirstAdded(s)
  {
    Channels.LiveMembers(s.added, s.gone);
    if s.chans != [] { assert s.chans[0] in s.chans; }
  }

  lemma ProbeKeepsAdded(s: State, ok: bool)
    requires |s.probes| == 1 && FirstAdded(s.chans)
    requires s.probes[0].OnChannel? || s.probes[0].FailedOn? ==> s.probes[0].ch in s.chans.added
    ensures var t := StepProbe(s, 0, ok);
            t.probes != [] && (t.probes[0].OnChannel? || t.probes[0].FailedOn?) ==> t.probes[0].ch in t.chans.added
  {
    OneProbe(s, ok);
  }

  lemma ProbeKeepsChoosing(s: State, ok: bool)
    requires Choosing(s) && |s.probes| == 1 && FirstAdded(s.chans)
    ensures Choosing(StepProbe(s, 0, ok))
  {
    OneProbe(s, ok);
    ProbeFollows(s.probes[0], s.log, Pick(s.chans.chans), ok);
    ProbeKeepsAdded(s, ok);
  }

  lemma ChannelsOnlyAdd(s: Channels.State, step: Channels.Action)
    requires Channels.Enabled(s, step)
    ensures forall c :: c in s.added ==> c in Channels.Apply(s, step).added
  {
  }

  lemma ProbeAndLogFrame(s: State, a: Action)
    requires Config(s.ka.interval, s.ka.countMax) && Enabled(s, a) && !a.ProbeStep?
    ensures var t := Apply(s, a);
            t.log == s.log && (t.probes == s.probes || t.probes == s.probes + [Spawned])
            && (a.ChannelStep? || t.chans == s.chans)
            && (t.probes != s.probes ==> a.TrySlot? && s.slot < 1)
  {
  }

  lemma ChannelsKeepFailed(s: Channels.State, step: Channels.Action)
    requires Channels.Enabled(s, step) && !step.ProbeRemoves?
    ensures Channels.Apply(s, step).failed == s.failed
  {
  }

  lemma ProbeKeepsDropped(s: State, ok: bool)
    requires |s.probes| == 1 && Choosing(s) && DroppedAgree(s)
    ensures DroppedAgree(StepProbe(s, 0, ok))
  {
    OneProbe(s, ok);
    var t := StepProbe(s, 0, ok);
    if s.probes[0].FailedOn? {
      assert t.chans.failed == s.chans.failed + {s.probes[0].ch};
    } else {
      assert t.chans.failed == s.chans.failed;
    }
  }

  lemma ApplyKeepsDropped(s: State, a: Action)
    requires Config(s.ka.interval, s.ka.countMax) && Counting(s) && Choosing(s) && DroppedAgree(s) && Enabled(s, a)
    ensures DroppedAgree(Apply(s, a))
  {
    if a.ProbeStep? {
      ProbeKeepsDropped(s, a.ok);
    } else {
      ProbeAndLogFrame(s, a);
      if a.ChannelStep? { ChannelsKeepFailed(s.chans, a.a); }
    }
  }

  lemma ApplyKeepsChoosing(s: State, a: Action)
    requires Config(s.ka.interval, s.ka.countMax) && Counting(s) && Choosing(s) && FirstAdded(s.chans) && Enabled(s, a)
    ensures Choosing(Apply(s, a))
  {
    if a.ProbeStep? {
      ProbeKeepsChoosing(s, a.ok);
    } else {
      ProbeAndLogFrame(s, a);
      if a.ChannelStep? { ChannelsOnlyAdd(s.chans, a.a); }
    }
  }

  /** The only step of a probe that touches the channels. */
  lemma ProbeTouchesChannels(s: State, i: nat, ok: bool)
    requires i < |s.probes|
    ensures StepProbe(s, i, ok).chans
         == if s.probes[i].FailedOn? && s.probes[i].ch in s.chans.added
            then Channels.Apply(s.chans, Channels.ProbeRemoves(s.probes[i].ch)) else s.chans
  {
  }

  lemma ApplyKeepsChannels(s: State, a: Action)
    requires Config(s.ka.interval, s.ka.countMax) && Enabled(s, a) && Channels.Inv(s.chans)
    ensures Channels.Inv(Apply(s, a).chans)
  {
    if a.ChannelStep? {
      Channels.ApplyKeepsInv(s.chans, a.a);
    } else if a.ProbeStep? {
      ProbeTouchesChannels(s, a.i, a.ok);
      if s.probes[a.i].FailedOn? && s.probes[a.i].ch in s.chans.added {
        Channels.ApplyKeepsInv(s.chans, Channels.ProbeRemoves(s.probes[a.i].ch));
      }
    } else {
      ProbeAndLogFrame(s, a);
    }
  }

  lemma ApplyKeepsLog(s: State, a: Action)
    requires Config(s.ka.interval, s.ka.countMax) && Enabled(s, a)
    requires Counting(s) && Choosing(s) && Orderly(s.log)
    ensures Orderly(Apply(s, a).log)
  {
    if a.ProbeStep? {
      OneProbe(s, a.ok);
      ProbeFollows(s.probes[0], s.log, Pick(s.chans.chans), a.ok);
      var events := EventOf(s.probes[0], Pick(s.chans.chans), a.ok);
      if events == [] { assert s.log + [] == s.log; } else { OrderlyGrows(s.log, events[0]); }
    } else {
      ProbeAndLogFrame(s, a);
    }
  }

  lemma ApplyKeepsInv(s: State, a: Action)
    requires Inv(s) && Enabled(s, a)
    ensures Inv(Apply(s, a))
  {
    ApplyKeepsTiming(s, a);
    ApplyKeepsCounting(s, a);
    FirstIn(s.chans);
    ApplyKeepsChoosing(s, a);
    ApplyKeepsChannels(s, a);
    ApplyKeepsLog(s, a);
    ApplyKeepsDropped(s, a);
  }

  // ---------------------------------------------------------------- runs

  predicate Possible(s: State, acts: seq<Action>)
    requires Config(s.ka.interval, s.ka.countMax)
    decreases |acts|
  {
    acts == [] || (Enabled(s, acts[0]) && Possible(Apply(s, acts[0]), acts[1..]))
  }

  function RunFrom(s: State, acts: seq<Action>): (t: State)
    requires Config(s.ka.interval, s.ka.countMax) && Possible(s, acts)
    ensures t.ka.interval == s.ka.interval && t.ka.countMax == s.ka.countMax
    decreases |acts|
  {
    if acts == [] then s else RunFrom(Apply(s, acts[0]), acts[1..])
  }

  lemma {:induction false} RunKeepsInv(s: State, acts: seq<Action>)
    requires Inv(s) && Possible(s, acts)
    ensures Inv(RunFrom(s, acts))
    decreases |acts|
  {
    if acts == [] {
    } else {
      ApplyKeepsInv(s, acts[0]);
      RunKeepsInv(Apply(s, acts[0]), acts[1..]);
    }
  }

  /** An empty pick is followed by a global request, a failed send by the removal of its channel
      and then a global request. */
  predicate GoesGlobal(log: seq<ProbeEvent>, i: nat)
    requires i < |log|
  {
    && (log[i] == Picked(None) ==> i + 1 < |log| && log[i + 1] == SentGlobal)
    && (log[i].SendFailed? ==>
          i + 2 < |log| && log[i + 1] == Dropped(log[i].failed) && log[i + 2] == SentGlobal)
  }

  lemma NextIsForced(log: seq<ProbeEvent>, i: nat)
    requires Orderly(log) && Last(log, Released) && i < |log|
    ensures GoesGlobal(log, i)
  {
    if log[i] == Picked(None) {
      assert Follows(log[..i + 1], log[i + 1]);
    } else if log[i].SendFailed? {
      assert Follows(log[..i + 1], log[i + 1]);
      assert Follows(log[..i + 2], log[i + 2]);
    }
  }

  lemma AllGoGlobal(s: State)
    requires Inv(s) && s.probes == []
    ensures forall i :: 0 <= i < |s.log| ==> GoesGlobal(s.log, i)
  {
    forall i | 0 <= i < |s.log| ensures GoesGlobal(s.log, i) {
      NextIsForced(s.log, i);
    }
  }

  /** At most one probe is in flight, and the probes run one after the other as they should
      (`Orderly`); whenever none is in flight, each one that found the set empty has sent a
      global request, and each one whose channel request got no reply has removed that channel
      and then sent one. A probe has removed exactly the channels in `failed`. */
  lemma ProbeDiscipline(interval: int, countMax: int, now: Time, acts: seq<Action>)
    requires Config(interval, countMax) && Possible(Start(interval, countMax, now), acts)
    ensures var s := RunFrom(Start(interval, countMax, now), acts);
            && |s.probes| == s.slot <= 1 && Orderly(s.log)
            && (forall c :: c in s.chans.failed <==> Dropped(c) in s.log)
            && (s.probes == [] ==> forall i :: 0 <= i < |s.log| ==> GoesGlobal(s.log, i))
  {
    RunKeepsInv(Start(interval, countMax, now), acts);
    var s := RunFrom(Start(interval, countMax, now), acts);
    if s.probes == [] { AllGoGlobal(s); }
  }

  /** A channel that is added and not torn down, and that no probe has removed. */
  predicate IsLive(s: Channels.State, c: Chan) {
    && c in s.forwarders && !s.forwarders[c].phase.Pending? && !Channels.PastRemoval(s.forwarders[c].phase)
    && c !in s.failed
  }

  /** `c` was added before `d`. */
  predicate AddedBefore(s: Channels.State, c: Chan, d: Chan) {
    exists i, j :: 0 <= i < j < |s.added| && s.added[i] == c && s.added[j] == d
  }

  lemma {:induction false} FirstLive(added: seq<Chan>, gone: set<Chan>, d: Chan)
    requires Channels.Distinct(added) && d in added && d !in gone
    ensures var live := Channels.Live(added, gone);
            && live != [] && live[0] in added
            && (live[0] == d || exists i, j :: 0 <= i < j < |added| && added[i] == live[0] && added[j] == d)
    decreases |added|
  {
    var live := Channels.Live(added, gone);
    if added[0] in gone {
      assert d in added[1..];
      FirstLive(added[1..], gone, d);
      assert live == Channels.Live(added[1..], gone);
      if live[0] != d {
        var i, j :| 0 <= i < j < |added[1..]| && added[1..][i] == live[0] && added[1..][j] == d;
        assert added[i + 1] == live[0] && added[j + 1] == d;
      }
    } else if added[0] != d {
      var j :| 0 <= j < |added| && added[j] == d;
      assert added[0] == live[0] && 0 < j;
    }
  }

  ghost predicate NoneLive(s: Channels.State) {
    forall c :: !IsLive(s, c)
  }

  ghost predicate IsOldestLive(s: Channels.State, c: Chan) {
    IsLive(s, c) && forall d :: IsLive(s, d) && d != c ==> AddedBefore(s, c, d)
  }

  lemma PickIsOldestLive(s: Channels.State)
    requires Channels.Inv(s)
    ensures Pick(s.chans).None? <==> NoneLive(s)
    ensures Pick(s.chans).Some? ==> IsOldestLive(s, Pick(s.chans).value)
  {
    Channels.LiveMembers(s.added, s.gone);
    forall c ensures c in s.chans <==> IsLive(s, c) { }
    if s.chans != [] {
      assert s.chans[0] in s.chans;
      forall d | IsLive(s, d) && d != s.chans[0] ensures AddedBefore(s, s.chans[0], d) {
        FirstLive(s.added, s.gone, d);
      }
    }
  }

  lemma CountedProbePicks(s: State, ok: bool)
    requires s.probes == [Counted]
    ensures StepProbe(s, 0, ok).probes
         == if Pick(s.chans.chans).None? then [NeedsGlobal] else [OnChannel(Pick(s.chans.chans).value)]
  {
    OneProbe(s, ok);
  }

  /** Where a probe stands after any() has answered. */
  ghost predicate WentTo(s: Channels.State, probes: seq<Probe>) {
    if NoneLive(s) then probes == [NeedsGlobal]
    else |probes| == 1 && probes[0].OnChannel? && IsOldestLive(s, probes[0].ch)
  }

  lemma ProbeGoesToOldestLive(s: State, ok: bool)
    requires Channels.Inv(s.chans) && s.probes == [Counted]
    ensures WentTo(s.chans, StepProbe(s, 0, ok).probes)
  {
    CountedProbePicks(s, ok);
    PickIsOldestLive(s.chans);
  }

  /** Over all runs a probe goes to the live channel that was added first, and straight to a
      global request exactly when there is none. */
  lemma ProbePrefersOldestLive(interval: int, countMax: int, now: Time, acts: seq<Action>, ok: bool)
    requires Config(interval, countMax) && Possible(Start(interval, countMax, now), acts)
    requires RunFrom(Start(interval, countMax, now), acts).probes == [Counted]
    ensures var s := RunFrom(Start(interval, countMax, now), acts);
            WentTo(s.chans, Apply(s, ProbeStep(0, ok)).probes)
  {
    RunKeepsInv(Start(interval, countMax, now), acts);
    ProbeGoesToOldestLive(RunFrom(Start(interval, countMax, now), acts), ok);
  }

  // ---------------------------------------------------------------- what the steps of a run add up to

  /** A reply, positive or negative, to a request that a probe has sent. */
  predicate IsAnswer(s: State, a: Action, ok: bool) {
    a.ProbeStep? && a.ok == ok && a.i < |s.probes| && (s.probes[a.i].OnGlobal? || (ok && s.probes[a.i].OnChannel?))
  }

  /** Replies to probes, if `ok`; otherwise global requests that got none. */
  function Answers(s: State, acts: seq<Action>, ok: bool): nat
    requires Config(s.ka.interval, s.ka.countMax) && Possible(s, acts)
    decreases |acts|
  {
    if acts == [] then 0 else (if IsAnswer(s, acts[0], ok) then 1 else 0) + Answers(Apply(s, acts[0]), acts[1..], ok)
  }

  /** Ticks that find the slot free. */
  function FreeTicks(s: State, acts: seq<Action>): nat
    requires Config(s.ka.interval, s.ka.countMax) && Possible(s, acts)
    decreases |acts|
  {
    if acts == [] then 0
    else (if acts[0].TrySlot? && s.probes == [] then 1 else 0) + FreeTicks(Apply(s, acts[0]), acts[1..])
  }

  function Unreset(s: State): nat {
    if s.probes != [] && s.probes[0].Answered? then 1 else 0
  }

  function Uncounted(s: State): nat {
    if s.probes != [] && s.probes[0].Spawned? then 1 else 0
  }

  /** What a step adds to the probes' successes and failures. */
  predicate AnswersAdded(s: State, a: Action, t: State) {
    && t.successes + Unreset(t) == s.successes + Unreset(s) + (if IsAnswer(s, a, true) then 1 else 0)
    && t.failures == s.failures + (if IsAnswer(s, a, false) then 1 else 0)
  }

  lemma ProbeAddsAnswers(s: State, ok: bool)
    requires |s.probes| == 1
    ensures AnswersAdded(s, ProbeStep(0, ok), StepProbe(s, 0, ok))
  {
    OneProbe(s, ok);
  }

  lemma OthersAddNoAnswers(s: State, a: Action)
    requires Config(s.ka.interval, s.ka.countMax) && Enabled(s, a) && !a.ProbeStep? && |s.probes| <= 1
    requires a.TrySlot? && s.slot < 1 ==> s.probes == []
    ensures AnswersAdded(s, a, Apply(s, a))
  {
    ProbeAndLogFrame(s, a);
  }

  lemma StepAnswers(s: State, a: Action)
    requires Timing(s) && Counting(s) && Enabled(s, a)
    ensures AnswersAdded(s, a, Apply(s, a))
  {
    if a.ProbeStep? { ProbeAddsAnswers(s, a.ok); } else { OthersAddNoAnswers(s, a); }
  }

  lemma StepFreeTicks(s: State, a: Action)
    requires Timing(s) && Counting(s) && Enabled(s, a)
    ensures var t := Apply(s, a);
            t.ka.metrics.serverRequested + Uncounted(t)
            == s.ka.metrics.serverRequested + Uncounted(s) + (if a.TrySlot? && s.probes == [] then 1 else 0)
  {
    if a.ProbeStep? { OneProbe(s, a.ok); } else { ProbeAndLogFrame(s, a); }
  }

  lemma StepCallbacks(s: State, a: Action)
    requires Config(s.ka.interval, s.ka.countMax) && Enabled(s, a)
    ensures var t := Apply(s, a);
            && t.ka.metrics.handlerCalled == s.ka.metrics.handlerCalled + (if a == CallbackBegins then 1 else 0)
            && t.midCallbacks == s.midCallbacks + (if a == CallbackBegins then 1 else 0)
                                 - (if a == CallbackResets then 1 else 0)
            && t.externalResets == s.externalResets + (if a == ExternalReset then 1 else 0)
  {
  }

  lemma CountFirst(acts: seq<Action>, a: Action)
    requires acts != []
    ensures multiset(acts)[a] == (if acts[0] == a then 1 else 0) + multiset(acts[1..])[a]
  {
    assert acts == [acts[0]] + acts[1..];
  }

  lemma {:induction false} ProbesAddUp(s: State, acts: seq<Action>)
    requires Inv(s) && Possible(s, acts)
    ensures var t := RunFrom(s, acts);
            && t.successes + Unreset(t) == s.successes + Unreset(s) + Answers(s, acts, true)
            && t.failures == s.failures + Answers(s, acts, false)
            && t.ka.metrics.serverRequested + Uncounted(t)
               == s.ka.metrics.serverRequested + Uncounted(s) + FreeTicks(s, acts)
    decreases |acts|
  {
    if acts == [] {
    } else {
      StepAnswers(s, acts[0]);
      StepFreeTicks(s, acts[0]);
      ApplyKeepsInv(s, acts[0]);
      ProbesAddUp(Apply(s, acts[0]), acts[1..]);
    }
  }

  lemma {:induction false} CallbacksAddUp(s: State, acts: seq<Action>)
    requires Config(s.ka.interval, s.ka.countMax) && Possible(s, acts)
    ensures var t := RunFrom(s, acts);
            && t.ka.metrics.handlerCalled == s.ka.metrics.handlerCalled + multiset(acts)[CallbackBegins]
            && t.midCallbacks + multiset(acts)[CallbackResets] == s.midCallbacks + multiset(acts)[CallbackBegins]
            && t.externalResets == s.externalResets + multiset(acts)[ExternalReset]
    decreases |acts|
  {
    if acts == [] {
    } else {
      StepCallbacks(s, acts[0]);
      CallbacksAddUp(Apply(s, acts[0]), acts[1..]);
      CountFirst(acts, CallbackBegins);
      CountFirst(acts, CallbackResets);
      CountFirst(acts, ExternalReset);
    }
  }

  /** The metrics are what the steps of the run add up to: the callbacks begun; the callbacks'
      and outside resets and the answered probes whose Reset has run; the ticks that found the
      slot free and whose probe has counted itself. Without outside resets the replies counted
      never exceed the callbacks and the probes sent. */
  lemma MetricsConservation(interval: int, countMax: int, now: Time, acts: seq<Action>)
    requires Config(interval, countMax) && Possible(Start(interval, countMax, now), acts)
    ensures var s0 := Start(interval, countMax, now);
            var s := RunFrom(s0, acts);
            var m, count := s.ka.metrics, multiset(acts);
            && m.handlerCalled == count[CallbackBegins]
            && m.replyReceived + Unreset(s) == count[CallbackResets] + count[ExternalReset] + Answers(s0, acts, true)
            && m.serverRequested + Uncounted(s) == FreeTicks(s0, acts)
            && m.replyReceived + s.midCallbacks == m.handlerCalled + s.successes + s.externalResets
            && s.successes + s.failures <= m.serverRequested <= s.successes + s.failures + 1
            && (count[ExternalReset] == 0 ==> m.replyReceived <= m.handlerCalled + m.serverRequested)
  {
    var s0 := Start(interval, countMax, now);
    RunKeepsInv(s0, acts);
    ProbesAddUp(s0, acts);
    CallbacksAddUp(s0, acts);
  }

  // ---------------------------------------------------------------- where bumps come from

  /** The steps that record activity: the loops take a request, a forwarder does, a keep-alive
      callback or an outside caller resets, or a probe that was answered does. */
  predicate Records(s: State, a: Action) {
    || a.PeerRequest? || a.CallbackResets? || a.ExternalReset?
    || (a.ChannelStep? && a.a.Note?)
    || (a.ProbeStep? && a.i < |s.probes| && s.probes[a.i].Answered?)
  }

  /** Their times, up to the Close of the keep-alive. */
  function BumpTimes(s: State, acts: seq<Action>): seq<Time>
    requires Config(s.ka.interval, s.ka.countMax) && Possible(s, acts)
    decreases |acts|
  {
    if acts == [] then []
    else (if Records(s, acts[0]) && !s.ka.closed then [s.now] else []) + BumpTimes(Apply(s, acts[0]), acts[1..])
  }

  lemma StepBumps(s: State, a: Action)
    requires Config(s.ka.interval, s.ka.countMax) && Enabled(s, a)
    ensures Apply(s, a).bumps == s.bumps + (if Records(s, a) && !s.ka.closed then [s.now] else [])
    ensures Apply(s, a).ka.closed <==> s.ka.closed || a.KeepAliveCloses?
  {
    if BumpOf(s, a).Some? { BumpEffect(s, a); }
  }

  lemma Regroup(a: seq<Time>, b: seq<Time>, c: seq<Time>)
    ensures a + (b + c) == a + b + c
  {
  }

  lemma {:induction false} BumpsFrom(s: State, acts: seq<Action>)
    requires Config(s.ka.interval, s.ka.countMax) && Possible(s, acts)
    ensures RunFrom(s, acts).bumps == s.bumps + BumpTimes(s, acts)
    ensures RunFrom(s, acts).ka.closed <==> s.ka.closed || KeepAliveCloses in acts
    decreases |acts|
  {
    if acts == [] {
    } else {
      StepBumps(s, acts[0]);
      BumpsFrom(Apply(s, acts[0]), acts[1..]);
      assert KeepAliveCloses in acts <==> acts[0] == KeepAliveCloses || KeepAliveCloses in acts[1..];
      Regroup(s.bumps, if Records(s, acts[0]) && !s.ka.closed then [s.now] else [],
              BumpTimes(Apply(s, acts[0]), acts[1..]));
    }
  }

  /** The peer shows itself: a request, a keep-alive callback, or a reply to a probe that was sent;
      or an outside caller says so. */
  predicate Evidence(s: State, a: Action) {
    || a.PeerRequest? || a.CallbackResets? || a.ExternalReset? || (a.ChannelStep? && a.a.Note?)
    || IsAnswer(s, a, true)
  }

  predicate NoEvidence(s: State, acts: seq<Action>)
    requires Config(s.ka.interval, s.ka.countMax) && Possible(s, acts)
    decreases |acts|
  {
    acts == [] || (!Evidence(s, acts[0]) && NoEvidence(Apply(s, acts[0]), acts[1..]))
  }

  lemma StaysUnanswered(s: State, a: Action)
    requires Timing(s) && Counting(s) && Enabled(s, a) && Unreset(s) == 0 && !IsAnswer(s, a, true)
    ensures Unreset(Apply(s, a)) == 0 && !(a.ProbeStep? && s.probes[a.i].Answered?)
  {
    if a.ProbeStep? { OneProbe(s, a.ok); } else { ProbeAndLogFrame(s, a); }
  }

  lemma {:induction false} NoEvidenceFrom(s: State, acts: seq<Action>)
    requires Inv(s) && Possible(s, acts) && NoEvidence(s, acts) && Unreset(s) == 0
    ensures RunFrom(s, acts).bumps == s.bumps
    decreases |acts|
  {
    if acts == [] {
    } else {
      StepBumps(s, acts[0]);
      StepAnswers(s, acts[0]);
      StaysUnanswered(s, acts[0]);
      ApplyKeepsInv(s, acts[0]);
      NoEvidenceFrom(Apply(s, acts[0]), acts[1..]);
    }
  }

  /** The recorded activity of a run is that of its recording steps, in order; and a run in which
      the peer never shows itself records nothing, however many probes are sent. */
  lemma BumpsComeFromThePeer(interval: int, countMax: int, now: Time, acts: seq<Action>)
    requires Config(interval, countMax) && Possible(Start(interval, countMax, now), acts)
    ensures var s0 := Start(interval, countMax, now);
            && RunFrom(s0, acts).bumps == [now] + BumpTimes(s0, acts)
            && (NoEvidence(s0, acts) ==> RunFrom(s0, acts).bumps == [now])
  {
    var s0 := Start(interval, countMax, now);
    BumpsFrom(s0, acts);
    if NoEvidence(s0, acts) { NoEvidenceFrom(s0, acts); }
  }

  // ---------------------------------------------------------------- how the ticker loop ends

  lemma StepEnds(s: State, a: Action)
    requires Config(s.ka.interval, s.ka.countMax) && Enabled(s, a)
    ensures var t := Apply(s, a);
            && (t.done <==> s.done || a.ConnectionEnds?)
            && (t.loop.Stopped? <==> s.loop.Stopped? || a.SeeDone? || a.CloseTransport?)
            && (t.ka.closed <==> s.ka.closed || a.KeepAliveCloses?)
  {
    if BumpOf(s, a).Some? { BumpEffect(s, a); }
  }

  lemma {:induction false} EndsFrom(s: State, acts: seq<Action>)
    requires Config(s.ka.interval, s.ka.countMax) && Possible(s, acts)
    ensures var t := RunFrom(s, acts);
            && (t.done <==> s.done || ConnectionEnds in acts)
            && (t.loop.Stopped? <==> s.loop.Stopped? || SeeDone in acts || CloseTransport in acts)
    ensures s.ka.closed ==> TakeTick !in acts
    ensures s.loop.Stopped? ==> TakeTick !in acts && TrySlot !in acts
    decreases |acts|
  {
    if acts == [] {
    } else {
      StepEnds(s, acts[0]);
      EndsFrom(Apply(s, acts[0]), acts[1..]);
      assert acts == [acts[0]] + acts[1..];
    }
  }

  /** The loop has ended exactly when it saw the end of the connection or closed the transport;
      once it has, it takes no tick and starts no probe, and no tick comes after the keep-alive's Close. */
  lemma LoopEndsExactlyWhen(interval: int, countMax: int, now: Time, before: seq<Action>, later: seq<Action>)
    requires Config(interval, countMax) && Possible(Start(interval, countMax, now), before)
    requires Possible(RunFrom(Start(interval, countMax, now), before), later)
    ensures var s := RunFrom(Start(interval, countMax, now), before);
            && (s.loop.Stopped? <==> SeeDone in before || CloseTransport in before)
            && (s.done <==> ConnectionEnds in before)
            && (s.loop.Stopped? ==> TakeTick !in later && TrySlot !in later)
            && (KeepAliveCloses in before ==> TakeTick !in later)
  {
    EndsFrom(Start(interval, countMax, now), before);
    BumpsFrom(Start(interval, countMax, now), before);
    EndsFrom(RunFrom(Start(interval, countMax, now), before), later);
  }

  lemma Between(x: int, interval: int)
    requires 0 <= x && interval > 0
    ensures 0 <= x / interval && x / interval * interval <= x < (1 + x / interval) * interval
  {
    Late(1, x / interval, interval);
  }

  lemma NextStillToCome(s: State)
    requires s.ka.interval > 0 && s.ka.nextTick <= s.now
    ensures s.now < s.ka.nextTick + (1 + Skipped(s)) * s.ka.interval <= s.now + s.ka.interval
  {
    Between(s.now - s.ka.nextTick, s.ka.interval);
    Late(1, Skipped(s), s.ka.interval);
  }

  lemma LateTick(s: State)
    requires Timing(s) && Enabled(s, TakeTick)
    ensures var t := Apply(s, TakeTick);
            && s.now < t.ka.nextTick <= s.now + s.ka.interval
            && t.ka.nextTick == s.ka.lastReceived + t.periods * s.ka.interval
  {
    NextStillToCome(s);
    ApplyKeepsTiming(s, TakeTick);
  }

  /** A tick that is taken late stands for all that were due: the next one is the first that is
      still to come, and a whole number of intervals after the last bump. */
  lemma LateTickDropsOthers(interval: int, countMax: int, now: Time, acts: seq<Action>)
    requires Config(interval, countMax) && Possible(Start(interval, countMax, now), acts)
    requires Enabled(RunFrom(Start(interval, countMax, now), acts), TakeTick)
    ensures var s := RunFrom(Start(interval, countMax, now), acts);
            var t := Apply(s, TakeTick);
            && s.now < t.ka.nextTick <= s.now + interval
            && t.ka.nextTick == s.ka.lastReceived + t.periods * interval
  {
    RunKeepsInv(Start(interval, countMax, now), acts);
    LateTick(RunFrom(Start(interval, countMax, now), acts));
  }

  // ---------------------------------------------------------------- no early close

  /** What is known of a timeout found at `checked` with `seen` bumps recorded. */
  predicate FoundSilent(bumps: seq<Time>, k: Ka, checked: Time, seen: nat) {
    && 0 < seen <= |bumps|
    && (forall i :: 0 <= i < seen ==> bumps[i] + k.countMax * k.interval < checked)
    && (forall i :: seen <= i < |bumps| ==> checked <= bumps[i])
  }

  predicate TimeoutSound(s: State) {
    match s.loop
    case Closing(checked, seen) => checked <= s.now && FoundSilent(s.bumps, s.ka, checked, seen)
    case Stopped(Some(Timeout(checked, seen, closed, total))) =>
      && checked <= closed <= s.now && FoundSilent(s.bumps, s.ka, checked, seen) && seen <= total <= |s.bumps|
      && (forall i :: 0 <= i < total ==> s.bumps[i] <= closed)
      && (forall i :: total <= i < |s.bumps| ==> closed <= s.bumps[i])
    case _ => true
  }

  lemma BumpKeepsSound(s: State, k: Ka)
    requires Timing(s) && TimeoutSound(s)
    requires k == Noted(s.ka, s.now).(metrics := k.metrics)
    ensures TimeoutSound(Bumped(s, k))
  {
  }

  lemma LoopKeepsSound(s: State, a: Action)
    requires Timing(s) && TimeoutSound(s) && Enabled(s, a)
    requires LoopStep(a)
    ensures TimeoutSound(Apply(s, a))
  {
  }

  lemma ClockworkDecidesSound(s: State, t: State)
    requires TimeoutSound(s) && SameClockwork(s, t)
    ensures TimeoutSound(t)
  {
  }

  lemma ApplyKeepsSound(s: State, a: Action)
    requires Timing(s) && TimeoutSound(s) && Enabled(s, a)
    ensures TimeoutSound(Apply(s, a))
  {
    if LoopStep(a) {
      LoopKeepsSound(s, a);
    } else if BumpOf(s, a).Some? {
      BumpEffect(s, a);
      BumpKeepsSound(s, BumpOf(s, a).value);
      ClockworkDecidesSound(Bumped(s, BumpOf(s, a).value), Apply(s, a));
    } else if !a.ConnectionEnds? && !a.KeepAliveCloses? {
      PassiveEffect(s, a);
      ClockworkDecidesSound(s, Apply(s, a));
    }
  }

  lemma {:induction false} RunKeepsSound(s: State, acts: seq<Action>)
    requires Timing(s) && TimeoutSound(s) && Possible(s, acts)
    ensures TimeoutSound(RunFrom(s, acts)) && Timing(RunFrom(s, acts))
    decreases |acts|
  {
    if acts == [] {
    } else {
      ApplyKeepsTiming(s, acts[0]);
      ApplyKeepsSound(s, acts[0]);
      RunKeepsSound(Apply(s, acts[0]), acts[1..]);
    }
  }

  /** In every run, if the loop finds the time to be up at `checked`, then no probe reply,
      global request or channel request was recorded in the countMax intervals before that; and
      `lastReceived` is always the latest recorded activity. */
  lemma NoEarlyClose(interval: int, countMax: int, now: Time, acts: seq<Action>)
    requires Config(interval, countMax) && Possible(Start(interval, countMax, now), acts)
    ensures var s := RunFrom(Start(interval, countMax, now), acts);
            && Recorded(s.ka, s.bumps)
            && (s.loop.Closing? ==>
                  s.loop.seen <= |s.bumps| && SilentBefore(s.bumps[..s.loop.seen], s.ka, s.loop.checked))
            && (s.loop.Stopped? && s.loop.timeout.Some? ==>
                  var e := s.loop.timeout.value;
                  e.seen <= |s.bumps| && SilentBefore(s.bumps[..e.seen], s.ka, e.checked))
  {
    RunKeepsSound(Start(interval, countMax, now), acts);
  }

  /** Some activity recorded before the transport was closed lies in the countMax intervals
      before the close. */
  predicate ClosedOnActivity(s: State, e: Timeout)
    requires e.total <= |s.bumps|
  {
    !SilentBefore(s.bumps[..e.total], s.ka, e.closed)
  }

  /** The only activity in the countMax intervals before the close is what was recorded between
      the check and the close: with a close that follows the check within countMax intervals,
      the transport is closed on recent activity exactly when there is any such. */
  lemma WhenClosedOnActivity(interval: int, countMax: int, now: Time, acts: seq<Action>)
    requires Config(interval, countMax) && Possible(Start(interval, countMax, now), acts)
    ensures var s := RunFrom(Start(interval, countMax, now), acts);
            s.loop.Stopped? && s.loop.timeout.Some? ==>
              var e := s.loop.timeout.value;
              && e.seen <= e.total <= |s.bumps|
              && (forall i :: 0 <= i < e.total && e.closed <= s.bumps[i] + countMax * interval ==> e.seen <= i)
              && (forall i :: e.total <= i < |s.bumps| ==> e.closed <= s.bumps[i])
              && (e.closed <= e.checked + countMax * interval ==> (ClosedOnActivity(s, e) <==> e.seen < e.total))
  {
    RunKeepsSound(Start(interval, countMax, now), acts);
    var s := RunFrom(Start(interval, countMax, now), acts);
    if s.loop.Stopped? && s.loop.timeout.Some? {
      var e := s.loop.timeout.value;
      if e.seen < e.total && e.closed <= e.checked + countMax * interval {
        assert s.bumps[..e.total][e.seen] == s.bumps[e.seen];
      }
    }
  }

  // ---------------------------------------------------------------- dead-peer detection

  /** Ticks are handled within `d` and the transport is closed within `e` of the check: time
      does not pass beyond that. */
  predicate Prompt(s: State, a: Action, d: int, e: int) {
    a.Advance? && !s.done ==>
      match s.loop
      case Ticked(due) => a.to <= due + d
      case Closing(checked, _) => a.to <= checked + e
      case Stopped(_) => true
      case _ => a.to <= s.ka.nextTick + d
  }

  predicate PromptRun(s: State, acts: seq<Action>, d: int, e: int)
    requires Config(s.ka.interval, s.ka.countMax) && Possible(s, acts)
    decreases |acts|
  {
    acts == [] || (Prompt(s, acts[0], d, e) && PromptRun(Apply(s, acts[0]), acts[1..], d, e))
  }

  /** When a timeout is found: more than countMax intervals after the last bump, and no more
      than countMax + 1 of them and the latency; exactly then when ticks are handled at once. */
  predicate InTime(last: Time, k: Ka, checked: Time, d: int) {
    && last + k.countMax * k.interval < checked <= last + (k.countMax + 1) * k.interval + d
    && (d == 0 ==> checked == last + (k.countMax + 1) * k.interval)
  }

  /** The next tick is never more than countMax + 1 intervals after the last bump (one more
      while a tick is being looked at). */
  predicate OnTime(s: State, d: int, e: int) {
    !s.done ==>
      match s.loop
      case Ticked(due) =>
        && s.periods <= s.ka.countMax + 2 && due <= s.now <= due + d
        && (s.periods == 1 ==> due <= s.ka.lastReceived)
        && (s.periods >= 2 ==> due == s.ka.nextTick - s.ka.interval)
      case Closing(checked, seen) =>
        && s.periods <= s.ka.countMax + 2 && s.now <= checked + e
        && 0 < seen <= |s.bumps| && InTime(s.bumps[seen - 1], s.ka, checked, d)
      case Stopped(timeout) =>
        && timeout.Some? && timeout.value.closed <= timeout.value.checked + e
        && 0 < timeout.value.seen <= |s.bumps|
        && InTime(s.bumps[timeout.value.seen - 1], s.ka, timeout.value.checked, d)
      case _ => s.periods <= s.ka.countMax + 1 && s.now <= s.ka.nextTick + d
  }

  predicate Latencies(s: State, d: int, e: int) {
    0 <= d < s.ka.interval && 0 <= e
  }

  lemma OnePeriodOnTime(s: State, d: int, e: int)
    requires Timing(s) && OnTime(s, d, e) && Latencies(s, d, e) && !s.done
    requires s.loop.Waiting? && s.ka.nextTick <= s.now
    ensures Skipped(s) == 0
  {
  }

  lemma AtMost(a: nat, b: nat, interval: int)
    requires a <= b && interval > 0
    ensures a * interval <= b * interval
  {
    Late(a, b - a, interval);
  }

  lemma TickedBound(s: State, d: int, e: int)
    requires Timing(s) && OnTime(s, d, e) && Latencies(s, d, e) && !s.done && s.loop.Ticked?
    ensures s.now <= s.ka.lastReceived + (s.ka.countMax + 1) * s.ka.interval + d
  {
    AtMost(s.periods - 1, s.ka.countMax + 1, s.ka.interval);
    Late(s.periods - 1, 1, s.ka.interval);
    AtMost(0, s.ka.countMax + 1, s.ka.interval);
  }

  /** With ticks handled at once, the time is up first at the tick countMax + 1 intervals after
      the last bump. */
  lemma ExactTick(s: State, e: int)
    requires Timing(s) && OnTime(s, 0, e) && Latencies(s, 0, e) && !s.done && s.loop.Ticked?
    requires TimeIsUpAt(s.ka, s.now)
    ensures s.now == s.ka.lastReceived + (s.ka.countMax + 1) * s.ka.interval
  {
    Late(s.periods - 1, 1, s.ka.interval);
    if s.periods == 1 {
      AtMost(0, s.ka.countMax, s.ka.interval);
    } else if s.periods - 1 <= s.ka.countMax {
      AtMost(s.periods - 1, s.ka.countMax, s.ka.interval);
    }
  }

  lemma CheckOnTime(s: State, d: int, e: int)
    requires Timing(s) && OnTime(s, d, e) && Latencies(s, d, e) && !s.done && s.loop.Ticked?
    ensures OnTime(Apply(s, CheckTime), d, e)
  {
    if TimeIsUpAt(s.ka, s.now) {
      TickedBound(s, d, e);
      if d == 0 { ExactTick(s, e); }
    } else if s.periods == s.ka.countMax + 2 {
      Late(s.ka.countMax, 2, s.ka.interval);
    }
  }

  lemma BumpKeepsOnTime(s: State, k: Ka, d: int, e: int)
    requires Timing(s) && OnTime(s, d, e) && Latencies(s, d, e)
    requires k == Noted(s.ka, s.now).(metrics := k.metrics)
    ensures OnTime(Bumped(s, k), d, e)
  {
  }

  lemma LoopKeepsOnTime(s: State, a: Action, d: int, e: int)
    requires Timing(s) && OnTime(s, d, e) && Enabled(s, a) && Prompt(s, a, d, e) && Latencies(s, d, e)
    requires LoopStep(a)
    ensures OnTime(Apply(s, a), d, e)
  {
    if !s.done {
      if a.TakeTick? {
        OnePeriodOnTime(s, d, e);
      } else if a.CheckTime? {
        CheckOnTime(s, d, e);
      }
    }
  }

  lemma ClockworkDecidesOnTime(s: State, t: State, d: int, e: int)
    requires OnTime(s, d, e) && SameClockwork(s, t)
    ensures OnTime(t, d, e)
  {
  }

  lemma ApplyKeepsOnTime(s: State, a: Action, d: int, e: int)
    requires Timing(s) && OnTime(s, d, e) && Enabled(s, a) && Prompt(s, a, d, e) && Latencies(s, d, e)
    ensures OnTime(Apply(s, a), d, e)
  {
    if LoopStep(a) {
      LoopKeepsOnTime(s, a, d, e);
    } else if BumpOf(s, a).Some? {
      BumpEffect(s, a);
      BumpKeepsOnTime(s, BumpOf(s, a).value, d, e);
      ClockworkDecidesOnTime(Bumped(s, BumpOf(s, a).value), Apply(s, a), d, e);
    } else if !a.ConnectionEnds? && !a.KeepAliveCloses? {
      PassiveEffect(s, a);
      ClockworkDecidesOnTime(s, Apply(s, a), d, e);
    }
  }

  lemma {:induction false} RunKeepsOnTime(s: State, acts: seq<Action>, d: int, e: int)
    requires Timing(s) && OnTime(s, d, e) && Latencies(s, d, e)
    requires Possible(s, acts) && PromptRun(s, acts, d, e)
    ensures OnTime(RunFrom(s, acts), d, e) && Timing(RunFrom(s, acts))
    decreases |acts|
  {
    if acts == [] {
    } else {
      ApplyKeepsTiming(s, acts[0]);
      ApplyKeepsOnTime(s, acts[0], d, e);
      RunKeepsOnTime(Apply(s, acts[0]), acts[1..], d, e);
    }
  }

  /** A dead peer is noticed in time, even if a probe hangs for ever: once more than
      countMax + 1 intervals and both latencies have passed since the last bump, the transport
      has been closed, unless the connection is already ending. The check that led to a close
      came more than countMax intervals after the last bump before it and at most countMax + 1
      of them and the latency, and at exactly countMax + 1 when ticks are handled at once. */
  lemma DeadPeerDetected(interval: int, countMax: int, now: Time, acts: seq<Action>, d: int, e: int)
    requires Config(interval, countMax) && Possible(Start(interval, countMax, now), acts)
    requires 0 <= d < interval && 0 <= e && PromptRun(Start(interval, countMax, now), acts, d, e)
    ensures var s := RunFrom(Start(interval, countMax, now), acts);
            s.now > s.ka.lastReceived + (countMax + 1) * interval + d + e && !s.done ==> s.loop.Stopped?
    ensures var s := RunFrom(Start(interval, countMax, now), acts);
            s.loop.Stopped? && !s.done ==>
              && s.loop.timeout.Some? && var t := s.loop.timeout.value;
              && 0 < t.seen <= |s.bumps| && InTime(s.bumps[t.seen - 1], s.ka, t.checked, d)
              && t.closed <= t.checked + e && t.closed <= s.ka.lastReceived + (countMax + 1) * interval + d + e
    ensures var s := RunFrom(Start(interval, countMax, now), acts);
            && s.ka.nextTick == s.ka.lastReceived + s.periods * interval
            && (!s.done && !s.loop.Stopped? ==>
                  1 <= s.periods <= countMax + (if s.loop.Ticked? || s.loop.Closing? then 2 else 1))
  {
    RunKeepsOnTime(Start(interval, countMax, now), acts, d, e);
    var s := RunFrom(Start(interval, countMax, now), acts);
    if !s.done && !s.loop.Stopped? {
      if s.loop.Ticked? {
        TickedBound(s, d, e);
      } else if !s.loop.Closing? {
        AtMost(s.periods, countMax + 1, interval);
      }
    }
  }

  // ---------------------------------------------------------------- particular runs

  lemma Chain(s: State, a: Action, more: seq<Action>)
    requires Config(s.ka.interval, s.ka.countMax) && Enabled(s, a) && Possible(Apply(s, a), more)
    ensures Possible(s, [a] + more) && RunFrom(s, [a] + more) == RunFrom(Apply(s, a), more)
    ensures Prompt(s, a, 0, 0) && PromptRun(Apply(s, a), more, 0, 0) ==> PromptRun(s, [a] + more, 0, 0)
  {
    assert ([a] + more)[1..] == more;
  }

  /** A loop that waits right after a tick, with one hung probe or none, and `periods` begun. */
  predicate Quiet(s: State) {
    Timing(s) && s.loop.Waiting? && !s.done && !s.ka.closed && s.now == s.ka.nextTick - s.ka.interval
  }

  /** The state in which a quiet loop looks at its next tick. */
  function NextTicked(s: State): State
    requires Quiet(s)
  {
    Apply(Apply(s, Advance(s.ka.nextTick)), TakeTick)
  }

  lemma QuietTick(s: State)
    requires Quiet(s)
    ensures var t := NextTicked(s);
            && Timing(t) && t.loop == Ticked(s.ka.nextTick) && t.periods == s.periods + 1 && t.now == s.ka.nextTick
            && t.ka.lastReceived == s.ka.lastReceived
            && t.ka.interval == s.ka.interval && t.ka.countMax == s.ka.countMax
            && t.ka.nextTick == s.ka.nextTick + s.ka.interval && !t.done && !t.ka.closed
  {
    assert Skipped(Apply(s, Advance(s.ka.nextTick))) == 0;
    ApplyKeepsTiming(s, Advance(s.ka.nextTick));
    ApplyKeepsTiming(Apply(s, Advance(s.ka.nextTick)), TakeTick);
  }

  /** A tick in time for the deadline leads back to waiting; the one after it to the close. */
  lemma QuietCheck(s: State)
    requires Quiet(s) && s.periods <= s.ka.countMax + 1
    ensures var u := Apply(NextTicked(s), CheckTime);
            if s.periods == s.ka.countMax + 1
            then && u.loop == Closing(s.ka.lastReceived + (s.ka.countMax + 1) * s.ka.interval, |s.bumps|)
                 && u.now == u.loop.checked && u.ka.lastReceived == s.ka.lastReceived && u.bumps == s.bumps
            else u.loop.Acquiring? && Quiet(Apply(u, TrySlot)) && Apply(u, TrySlot).periods == s.periods + 1
                 && Apply(u, TrySlot).ka == NextTicked(s).ka
  {
    QuietTick(s);
    var t := NextTicked(s);
    if s.periods == s.ka.countMax + 1 {
      Late(s.ka.countMax, 1, s.ka.interval);
    } else {
      AtMost(s.periods, s.ka.countMax, s.ka.interval);
      ApplyKeepsTiming(t, CheckTime);
      ApplyKeepsTiming(Apply(t, CheckTime), TrySlot);
    }
  }

  /** Up to the check, and then on. */
  lemma OneRound(s: State, more: seq<Action>) returns (acts: seq<Action>)
    requires Quiet(s) && s.periods <= s.ka.countMax + 1
    requires var u := Apply(NextTicked(s), CheckTime); Possible(u, more) && PromptRun(u, more, 0, 0)
    ensures Possible(s, acts) && PromptRun(s, acts, 0, 0)
    ensures RunFrom(s, acts) == RunFrom(Apply(NextTicked(s), CheckTime), more)
  {
    QuietTick(s);
    var ahead := Apply(s, Advance(s.ka.nextTick));
    Chain(NextTicked(s), CheckTime, more);
    Chain(ahead, TakeTick, [CheckTime] + more);
    Chain(s, Advance(s.ka.nextTick), [TakeTick] + ([CheckTime] + more));
    acts := [Advance(s.ka.nextTick)] + ([TakeTick] + ([CheckTime] + more));
  }

  predicate ClosedExactly(s: State, t: State) {
    && t.loop.Stopped? && t.loop.timeout.Some? && t.ka.lastReceived == s.ka.lastReceived
    && t.loop.timeout.value.checked == s.ka.lastReceived + (s.ka.countMax + 1) * s.ka.interval
    && t.loop.timeout.value.closed == t.loop.timeout.value.checked
  }

  /** From every quiet state there is a run in which the peer stays silent and ticks are handled
      at once, up to the close at exactly countMax + 1 intervals after the last activity; what
      holds of all such runs is `DeadPeerDetected`. */
  lemma {:induction false} SilentPeerIsClosed(s: State) returns (acts: seq<Action>)
    requires Quiet(s) && s.periods <= s.ka.countMax + 1
    ensures Possible(s, acts) && PromptRun(s, acts, 0, 0)
    ensures ClosedExactly(s, RunFrom(s, acts))
    decreases s.ka.countMax + 1 - s.periods
  {
    QuietTick(s);
    QuietCheck(s);
    var u := Apply(NextTicked(s), CheckTime);
    var more: seq<Action>;
    if s.periods <= s.ka.countMax {
      more := SilentPeerIsClosed(Apply(u, TrySlot));
      Chain(u, TrySlot, more);
      more := [TrySlot] + more;
    } else {
      Chain(u, CloseTransport, []);
      more := [CloseTransport] + [];
    }
    acts := OneRound(s, more);
  }

  /** A run up to the check at 20, with an interval of 10, a count of 1 and no activity since the
      start at 0. */
  lemma UpToTheCheck() returns (s: State, acts: seq<Action>)
    ensures s == Start(10, 1, 0) && Possible(s, acts) && RunFrom(s, acts).loop == Closing(20, 1)
    ensures var t := RunFrom(s, acts);
            t.now == 20 && t.bumps == [0] && t.ka == Ka(10, 1, 0, 30, Metrics(0, 0, 0), false)
  {
    s := Start(10, 1, 0);
    var s1 := Apply(s, Advance(10));
    var s2 := Apply(s1, TakeTick);
    var s3 := Apply(s2, CheckTime);
    var s4 := Apply(s3, TrySlot);
    var s5 := Apply(s4, Advance(20));
    var s6 := Apply(s5, TakeTick);
    Chain(s6, CheckTime, []);
    Chain(s5, TakeTick, [CheckTime]);
    acts := [TakeTick] + [CheckTime];
    Chain(s4, Advance(20), acts);
    acts := [Advance(20)] + acts;
    Chain(s3, TrySlot, acts);
    acts := [TrySlot] + acts;
    Chain(s2, CheckTime, acts);
    acts := [CheckTime] + acts;
    Chain(s1, TakeTick, acts);
    acts := [TakeTick] + acts;
    Chain(s, Advance(10), acts);
    acts := [Advance(10)] + acts;
  }

  /** From there on: a request arrives at 20, after the check, and the transport is closed at 21
      all the same, on activity one unit old where the limit is ten. */
  lemma ActivityAfterTheCheckIsIgnored() returns (s: State, acts: seq<Action>, more: seq<Action>)
    ensures s == Start(10, 1, 0) && Possible(s, acts) && Possible(RunFrom(s, acts), more)
    ensures var t := RunFrom(RunFrom(s, acts), more);
            && t.loop == Stopped(Some(Timeout(20, 1, 21, 2))) && t.bumps == [0, 20]
            && ClosedOnActivity(t, t.loop.timeout.value)
  {
    s, acts := UpToTheCheck();
    var s0 := RunFrom(s, acts);
    var s1 := Apply(s0, PeerRequest);
    var s2 := Apply(s1, Advance(21));
    Chain(s2, CloseTransport, []);
    Chain(s1, Advance(21), [CloseTransport]);
    more := [Advance(21)] + [CloseTransport];
    Chain(s0, PeerRequest, more);
    more := [PeerRequest] + more;
    assert s1.bumps == [0, 20];
    assert s1.bumps[..2][1] == 20;
  }
}
