/** Server lifecycle (server.go): tracked listeners and connections, the two wait groups, and
    the resettable done channel under Close, Shutdown and repeated Serve. */
module Lifecycle {
  import opened Basics

  type Ln = nat
  type ConnId = nat
  type ServeId = nat
  type Gen = nat

  /** The server's fields. Done channels are numbered as they are made; `closings` are the
      numbers passed to close(), in order. `shut` and `cut` are the listeners and connections
      on which Close was called. */
  datatype Srv = Srv(
    listeners: set<Ln>, conns: set<ConnId>, listenerWg: int, connWg: int,
    done: Option<Gen>, made: nat, closings: seq<Gen>, shut: set<Ln>, cut: set<ConnId>)

  const NEW := Srv({}, {}, 0, 0, None, 0, [], {}, {})

  // ---------------------------------------------------------------- the lock sections

  /** The done channel, made on demand. */
  function WithDone(v: Srv): (t: Srv)
    ensures t.done.Some?
  {
    if v.done.None? then v.(done := Some(v.made), made := v.made + 1) else v
  }

  function CloseDone(v: Srv): Srv {
    var t := WithDone(v);
    if t.done.value in t.closings then t else t.(closings := t.closings + [t.done.value])
  }

  function CloseListeners(v: Srv): Srv {
    v.(shut := v.shut + v.listeners, listeners := {})
  }

  function CloseAll(v: Srv): Srv {
    var t := CloseListeners(CloseDone(v));
    t.(cut := t.cut + t.conns, conns := {})
  }

  function StopListening(v: Srv): Srv {
    CloseDone(CloseListeners(v))
  }

  predicate Resets(v: Srv) {
    v.listeners == {} && v.conns == {}
  }

  function ListenerTracked(v: Srv, ln: Ln, add: bool): Srv {
    if add then
      v.(done := if Resets(v) then None else v.done, listeners := v.listeners + {ln}, listenerWg := v.listenerWg + 1)
    else v.(listeners := v.listeners - {ln}, listenerWg := v.listenerWg - 1)
  }

  function ConnTracked(v: Srv, c: ConnId, add: bool): Srv {
    if add then v.(conns := v.conns + {c}, connWg := v.connWg + 1)
    else v.(conns := v.conns - {c}, connWg := v.connWg - 1)
  }

  predicate DoneClosed(v: Srv) {
    v.done.Some? && v.done.value in v.closings
  }

  /** Done channels are numbered in the order of their making, the current one last, and each
      is closed at most once. */
  predicate Numbered(done: Option<Gen>, made: nat, closings: seq<Gen>) {
    && (forall i, j :: 0 <= i < j < |closings| ==> closings[i] != closings[j])
    && (forall i :: 0 <= i < |closings| ==> closings[i] < made)
    && (done.Some? ==> done.value == made - 1)
  }

  predicate DoneNumbered(v: Srv) {
    Numbered(v.done, v.made, v.closings)
  }

  lemma CloseNumbered(v: Srv)
    requires DoneNumbered(v)
    ensures DoneNumbered(CloseDone(v)) && DoneClosed(CloseDone(v))
  {
    var t := CloseDone(v);
    if WithDone(v).done.value !in v.closings { assert t.closings[|v.closings|] == t.done.value; }
  }

  /** The fields of Server that these methods use. `serving` are the Serve calls now
      running and `tracked` the connections now tracked. */
  class Server {
    var listeners: set<Ln>
    var conns: set<ConnId>
    var listenerWg: int
    var connWg: int
    var doneChan: Option<Gen>
    var made: nat
    var closings: seq<Gen>
    var shut: set<Ln>
    var cut: set<ConnId>
    ghost var serving: set<ServeId>
    ghost var tracked: set<ConnId>

    ghost function View(): Srv
      reads this
    {
      Srv(listeners, conns, listenerWg, connWg, doneChan, made, closings, shut, cut)
    }

    /** The two counts and what they count. */
    ghost predicate Counted()
      reads this
    {
      listenerWg == |serving| && connWg == |tracked| && conns <= tracked
    }

    /** The wait groups count what runs, only what runs is tracked, and no done channel has
        been closed twice. */
    ghost predicate Valid()
      reads this
    {
      Counted() && Numbered(doneChan, made, closings)
    }

    constructor ()
      ensures Valid() && View() == NEW && serving == {} && tracked == {}
    {
      listeners, conns, listenerWg, connWg := {}, {}, 0, 0;
      doneChan, made, closings, shut, cut := None, 0, [], {}, {};
      serving, tracked := {}, {};
    }

    method GetDoneChan() returns (ch: Gen)
      requires Valid()
      modifies this`doneChan, this`made
      ensures Valid() && View() == WithDone(old(View())) && doneChan == Some(ch)
    {
      if doneChan.None? {
        doneChan := Some(made);
        made := made + 1;
      }
      ch := doneChan.value;
    }

    method CloseDoneChan()
      requires Valid()
      modifies this`doneChan, this`made, this`closings
      ensures Valid() && View() == CloseDone(old(View())) && DoneClosed(View())
    {
      CloseNumbered(View());
      var ch := GetDoneChan();
      if ch !in closings {
        closings := closings + [ch];
      }
    }

    /** `failing` are the listeners whose Close returns an error. The first error met is kept. */
    method CloseAllListeners(failing: set<Ln>) returns (err: Option<Ln>)
      requires Valid()
      modifies this`listeners, this`shut
      ensures Valid() && View() == CloseListeners(old(View()))
      ensures listeners == {} && shut == old(shut) + old(listeners)
      ensures err.None? <==> old(listeners) !! failing
      ensures err.Some? ==> err.value in old(listeners) && err.value in failing
    {
      err := None;
      while listeners != {}
        invariant listeners <= old(listeners) && shut + listeners == old(shut) + old(listeners)
        invariant err.None? ==> forall ln :: ln in old(listeners) && ln in failing ==> ln in listeners
        invariant err.Some? ==> err.value in old(listeners) && err.value in failing
        decreases listeners
      {
        var ln :| ln in listeners;
        shut := shut + {ln};
        if ln in failing && err.None? { err := Some(ln); }
        listeners := listeners - {ln};
      }
    }

    method CloseAllConns()
      requires Valid()
      modifies this`conns, this`cut
      ensures Valid() && View() == old(View()).(cut := old(cut) + old(conns), conns := {})
    {
      while conns != {}
        invariant Valid() && conns <= old(conns) && cut + conns == old(cut) + old(conns)
        decreases conns
      {
        var c :| c in conns;
        cut := cut + {c};
        conns := conns - {c};
      }
    }

    method Close(failing: set<Ln>) returns (err: Option<Ln>)
      requires Valid()
      modifies this`doneChan, this`made, this`closings, this`listeners, this`shut, this`conns, this`cut
      ensures Valid() && View() == CloseAll(old(View()))
      ensures listeners == {} && shut == old(shut) + old(listeners)
      ensures conns == {} && cut == old(cut) + old(conns) && DoneClosed(View())
      ensures err.None? <==> old(listeners) !! failing
    {
      CloseDoneChan();
      err := CloseAllListeners(failing);
      CloseAllConns();
    }

    /** The locked part of Shutdown. */
    method BeginShutdown(failing: set<Ln>) returns (err: Option<Ln>)
      requires Valid()
      modifies this`doneChan, this`made, this`closings, this`listeners, this`shut
      ensures Valid() && View() == StopListening(old(View()))
      ensures listeners == {} && shut == old(shut) + old(listeners) && DoneClosed(View())
      ensures err.None? <==> old(listeners) !! failing
    {
      err := CloseAllListeners(failing);
      CloseDoneChan();
    }

    /** Serve call `call` starts or ends. */
    method TrackListener(ln: Ln, add: bool, ghost call: ServeId)
      requires Valid() && (add <==> call !in serving)
      modifies this`listeners, this`listenerWg, this`doneChan, this`serving
      ensures Valid() && View() == ListenerTracked(old(View()), ln, add)
      ensures serving == (if add then old(serving) + {call} else old(serving) - {call})
    {
      if add {
        if listeners == {} && conns == {} { doneChan := None; }
        listeners := listeners + {ln};
        listenerWg := listenerWg + 1;
        serving := serving + {call};
        assert |serving| == |old(serving)| + 1;
      } else {
        listeners := listeners - {ln};
        listenerWg := listenerWg - 1;
        serving := serving - {call};
        assert |serving| == |old(serving)| - 1;
      }
    }

    method TrackConn(c: ConnId, add: bool)
      requires Valid() && (add <==> c !in tracked)
      modifies this`conns, this`connWg, this`tracked
      ensures Valid() && View() == ConnTracked(old(View()), c, add)
      ensures tracked == (if add then old(tracked) + {c} else old(tracked) - {c})
    {
      if add {
        conns := conns + {c};
        connWg := connWg + 1;
        tracked := tracked + {c};
      } else {
        conns := conns - {c};
        connWg := connWg - 1;
        tracked := tracked - {c};
      }
    }
  }

  // ---------------------------------------------------------------- the protocol

  datatype Answer = ServerClosed | RawError

  /** A Serve call from the moment it has tracked its listener: in Accept; with an accept
      error in hand; holding the done channel it has asked for; on its way out; returned. */
  datatype Phase =
    | Accepting
    | AcceptFailed(temporary: bool)
    | Holding(gen: Gen, temporary: bool)
    | Leaving(answer: Answer)
    | Left(answer: Answer)

  datatype Serving = Serving(ln: Ln, phase: Phase)

  /** The goroutine that a Shutdown starts: waiting for listenerWg, then for connWg, then done.
      `serves` and `conns` are what was active when Shutdown held the lock. */
  datatype Wait = ForListeners | ForConns | Finished
  datatype Waiter = Waiter(stage: Wait, serves: set<ServeId>, conns: set<ConnId>)

  datatype DoneEvent = ClosedIt | ResetIt

  /** `shaking` are the connections whose HandleConn has started but not tracked them yet,
      `live` those it tracks, `gone` those that have ended, tracked or not. */
  datatype State = State(
    srv: Srv, serves: map<ServeId, Serving>, shaking: set<ConnId>, live: set<ConnId>, gone: set<ConnId>,
    waiters: seq<Waiter>, log: seq<DoneEvent>)

  const INITIAL := State(NEW, map[], {}, {}, {}, [], [])

  datatype Action =
    | ServeTracks(id: ServeId, ln: Ln)
    | AcceptOk(id: ServeId, c: ConnId)
    | AcceptError(id: ServeId, temporary: bool)
    | AsksDone(id: ServeId)
    | Decides(id: ServeId)
    | Untracks(id: ServeId)
    | ConnHanded(c: ConnId)              // HandleConn called without a Serve
    | HandshakeFails(c: ConnId)          // or the connection callback refuses it
    | ConnTracks(c: ConnId)
    | ConnEnds(c: ConnId)
    | Closes
    | ShutsDown
    | ListenersDone(k: nat)
    | ConnsDone(k: nat)

  predicate NewConn(s: State, c: ConnId) {
    c !in s.shaking && c !in s.live && c !in s.gone
  }

  /** A closed listener accepts nothing. */
  predicate Enabled(s: State, a: Action) {
    match a
    case ServeTracks(id, _) => id !in s.serves
    case AcceptOk(id, c) =>
      id in s.serves && s.serves[id].phase.Accepting? && s.serves[id].ln !in s.srv.shut && NewConn(s, c)
    case AcceptError(id, _) => id in s.serves && s.serves[id].phase.Accepting?
    case AsksDone(id) => id in s.serves && s.serves[id].phase.AcceptFailed?
    case Decides(id) => id in s.serves && s.serves[id].phase.Holding?
    case Untracks(id) => id in s.serves && s.serves[id].phase.Leaving?
    case ConnHanded(c) => NewConn(s, c)
    case HandshakeFails(c) => c in s.shaking
    case ConnTracks(c) => c in s.shaking
    case ConnEnds(c) => c in s.live
    case Closes => true
    case ShutsDown => true
    case ListenersDone(k) => k < |s.waiters| && s.waiters[k].stage.ForListeners? && s.srv.listenerWg == 0
    case ConnsDone(k) => k < |s.waiters| && s.waiters[k].stage.ForConns? && s.srv.connWg == 0
  }

  function SetPhase(s: State, id: ServeId, p: Phase): State
    requires id in s.serves
  {
    s.(serves := s.serves[id := s.serves[id].(phase := p)])
  }

  /** Serve calls that have tracked their listener and not yet untracked it. */
  function Active(serves: map<ServeId, Serving>): set<ServeId> {
    set id | id in serves && !serves[id].phase.Left?
  }

  function Apply(s: State, a: Action): State
    requires Enabled(s, a)
  {
    match a
    case ServeTracks(id, ln) =>
      s.(srv := ListenerTracked(s.srv, ln, true), serves := s.serves[id := Serving(ln, Accepting)],
         log := if Resets(s.srv) then s.log + [ResetIt] else s.log)
    case AcceptOk(_, c) => s.(shaking := s.shaking + {c})
    case AcceptError(id, temporary) => SetPhase(s, id, AcceptFailed(temporary))
    case AsksDone(id) =>
      var v := WithDone(s.srv);
      SetPhase(s.(srv := v), id, Holding(v.done.value, s.serves[id].phase.temporary))
    case Decides(id) =>
      var p := s.serves[id].phase;
      SetPhase(s, id, if p.gen in s.srv.closings then Leaving(ServerClosed)
                      else if p.temporary then Accepting else Leaving(RawError))
    case Untracks(id) =>
      SetPhase(s.(srv := ListenerTracked(s.srv, s.serves[id].ln, false)), id, Left(s.serves[id].phase.answer))
    case ConnHanded(c) => s.(shaking := s.shaking + {c})
    case HandshakeFails(c) => s.(shaking := s.shaking - {c}, gone := s.gone + {c})
    case ConnTracks(c) =>
      s.(srv := ConnTracked(s.srv, c, true), shaking := s.shaking - {c}, live := s.live + {c})
    case ConnEnds(c) => s.(srv := ConnTracked(s.srv, c, false), live := s.live - {c}, gone := s.gone + {c})
    case Closes => s.(srv := CloseAll(s.srv), log := s.log + [ClosedIt])
    case ShutsDown =>
      s.(srv := StopListening(s.srv), log := s.log + [ClosedIt],
         waiters := s.waiters + [Waiter(ForListeners, Active(s.serves), s.live)])
    case ListenersDone(k) => s.(waiters := s.waiters[k := s.waiters[k].(stage := ForConns)])
    case ConnsDone(k) => s.(waiters := s.waiters[k := s.waiters[k].(stage := Finished)])
  }

  // ---------------------------------------------------------------- the invariant

  predicate ServesCounted(s: State) {
    s.srv.listenerWg == |Active(s.serves)|
  }

  predicate ConnsCounted(s: State) {
    s.srv.connWg == |s.live| && s.srv.conns <= s.live
    && s.live !! s.gone && s.shaking !! s.live && s.shaking !! s.gone
  }

  /** The wait-group counts are the numbers of active Serve calls and of tracked connections. */
  predicate Counts(s: State) {
    ServesCounted(s) && ConnsCounted(s)
  }

  /** No done channel is closed twice; the current one is closed exactly when the last event
      was a close. */
  predicate DoneAgrees(s: State) {
    && DoneNumbered(s.srv)
    && (DoneClosed(s.srv) <==> s.log != [] && s.log[|s.log| - 1] == ClosedIt)
  }

  /** What each waiter has waited for has ended. */
  predicate Joined(s: State, w: Waiter) {
    && (forall id :: id in w.serves ==> id in s.serves)
    && w.conns <= s.live + s.gone
    && (!w.stage.ForListeners? ==> forall id :: id in w.serves ==> s.serves[id].phase.Left?)
    && (w.stage.Finished? ==> w.conns <= s.gone)
  }

  predicate WaitersAgree(s: State) {
    forall k :: 0 <= k < |s.waiters| ==> Joined(s, s.waiters[k])
  }

  predicate Inv(s: State) {
    Counts(s) && DoneAgrees(s) && WaitersAgree(s)
  }

  lemma TrackingKeepsServesCounted(s: State, a: Action)
    requires ServesCounted(s) && Enabled(s, a) && (a.ServeTracks? || a.Untracks?)
    ensures ServesCounted(Apply(s, a))
  {
    var t := Apply(s, a);
    if a.ServeTracks? {
      assert Active(t.serves) == Active(s.serves) + {a.id};
    } else {
      assert Active(t.serves) == Active(s.serves) - {a.id};
    }
  }

  lemma OthersKeepActive(s: State, a: Action)
    requires Enabled(s, a) && !a.ServeTracks? && !a.Untracks?
    ensures Active(Apply(s, a).serves) == Active(s.serves) && Apply(s, a).srv.listenerWg == s.srv.listenerWg
  {
  }

  lemma ApplyKeepsServesCounted(s: State, a: Action)
    requires ServesCounted(s) && Enabled(s, a)
    ensures ServesCounted(Apply(s, a))
  {
    if a.ServeTracks? || a.Untracks? {
      TrackingKeepsServesCounted(s, a);
    } else {
      OthersKeepActive(s, a);
    }
  }

  lemma TrackingKeepsConnsCounted(s: State, c: ConnId)
    requires ConnsCounted(s)
    ensures Enabled(s, ConnTracks(c)) ==> ConnsCounted(Apply(s, ConnTracks(c)))
    ensures Enabled(s, ConnEnds(c)) ==> ConnsCounted(Apply(s, ConnEnds(c)))
  {
  }

  lemma OthersKeepConnsCounted(s: State, a: Action)
    requires ConnsCounted(s) && Enabled(s, a) && !a.ConnTracks? && !a.ConnEnds?
    ensures ConnsCounted(Apply(s, a))
  {
    var t := Apply(s, a);
    assert t.live == s.live && t.srv.connWg == s.srv.connWg;
    assert t.srv.conns == s.srv.conns || t.srv.conns == {};
  }

  lemma ApplyKeepsConnsCounted(s: State, a: Action)
    requires ConnsCounted(s) && Enabled(s, a)
    ensures ConnsCounted(Apply(s, a))
  {
    if a.ConnTracks? || a.ConnEnds? {
      TrackingKeepsConnsCounted(s, a.c);
    } else {
      OthersKeepConnsCounted(s, a);
    }
  }

  lemma ApplyKeepsCounts(s: State, a: Action)
    requires Counts(s) && Enabled(s, a)
    ensures Counts(Apply(s, a))
  {
    ApplyKeepsServesCounted(s, a);
    ApplyKeepsConnsCounted(s, a);
  }

  lemma ClosingKeepsDone(s: State, a: Action)
    requires DoneAgrees(s) && (a.Closes? || a.ShutsDown?)
    ensures DoneAgrees(Apply(s, a)) && Apply(s, a).log == s.log + [ClosedIt]
  {
    CloseNumbered(s.srv);
    CloseNumbered(CloseListeners(s.srv));
  }

  /** Steps that neither close nor reset the done channel. */
  lemma OthersKeepDone(s: State, a: Action)
    requires DoneAgrees(s) && Enabled(s, a) && !a.Closes? && !a.ShutsDown? && !a.ServeTracks?
    ensures var t := Apply(s, a);
            && DoneAgrees(t) && t.log == s.log && t.srv.closings == s.srv.closings && t.srv.made >= s.srv.made
            && (s.srv.done.Some? ==> t.srv.done == s.srv.done)
            && (s.srv.done.None? ==> t.srv.done.None? || t.srv.done.value == s.srv.made)
  {
  }

  lemma ApplyKeepsDone(s: State, a: Action)
    requires DoneAgrees(s) && Enabled(s, a)
    ensures DoneAgrees(Apply(s, a))
  {
    if a.Closes? || a.ShutsDown? {
      ClosingKeepsDone(s, a);
    } else if !a.ServeTracks? {
      OthersKeepDone(s, a);
    }
  }

  /** No Serve call and no connection that a waiter waits for comes back. */
  lemma NothingComesBack(s: State, a: Action)
    requires Enabled(s, a)
    ensures var t := Apply(s, a);
            && (forall id :: id in s.serves ==>
                  id in t.serves && (s.serves[id].phase.Left? ==> t.serves[id].phase.Left?))
            && s.gone <= t.gone && s.live + s.gone <= t.live + t.gone
  {
  }

  lemma WaiterSteps(s: State, a: Action, k: nat)
    requires Counts(s) && Enabled(s, a) && k < |s.waiters| && Joined(s, s.waiters[k])
    requires a == ListenersDone(k) || a == ConnsDone(k)
    ensures Joined(Apply(s, a), Apply(s, a).waiters[k])
  {
    if a == ListenersDone(k) {
      forall id | id in s.waiters[k].serves ensures s.serves[id].phase.Left? {
        assert Active(s.serves) == {};
        assert id !in Active(s.serves);
      }
    }
  }

  lemma ApplyKeepsWaiters(s: State, a: Action)
    requires Counts(s) && WaitersAgree(s) && Enabled(s, a)
    ensures WaitersAgree(Apply(s, a))
  {
    var t := Apply(s, a);
    NothingComesBack(s, a);
    forall k | 0 <= k < |t.waiters| ensures Joined(t, t.waiters[k]) {
      if a == ListenersDone(k) || a == ConnsDone(k) {
        WaiterSteps(s, a, k);
      } else if k < |s.waiters| {
        assert t.waiters[k] == s.waiters[k];
      }
    }
  }

  lemma ApplyKeepsInv(s: State, a: Action)
    requires Inv(s) && Enabled(s, a)
    ensures Inv(Apply(s, a))
  {
    ApplyKeepsCounts(s, a);
    ApplyKeepsDone(s, a);
    ApplyKeepsWaiters(s, a);
  }

  predicate Possible(s: State, acts: seq<Action>)
    decreases |acts|
  {
    acts == [] || (Enabled(s, acts[0]) && Possible(Apply(s, acts[0]), acts[1..]))
  }

  function RunFrom(s: State, acts: seq<Action>): State
    requires Possible(s, acts)
    decreases |acts|
  {
    if acts == [] then s else RunFrom(Apply(s, acts[0]), acts[1..])
  }

  lemma {:induction false} RunKeepsInv(s: State, acts: seq<Action>)
    requires Inv(s) && Possible(s, acts)
    ensures Inv(RunFrom(s, acts))
    decreases |acts|
  {
    if acts == [] {
    } else {
      ApplyKeepsInv(s, acts[0]);
      RunKeepsInv(Apply(s, acts[0]), acts[1..]);
    }
  }

  lemma InitiallyInv()
    ensures Inv(INITIAL)
  {
    assert Active(INITIAL.serves) == {};
  }

  // ---------------------------------------------------------------- over all runs

  /** The counts never go negative, and no done channel is ever closed twice. */
  lemma CountsAndClosings(acts: seq<Action>)
    requires Possible(INITIAL, acts)
    ensures var s := RunFrom(INITIAL, acts);
            && s.srv.listenerWg == |Active(s.serves)| && s.srv.connWg == |s.live|
            && (forall i, j :: 0 <= i < j < |s.srv.closings| ==> s.srv.closings[i] != s.srv.closings[j])
            && (DoneClosed(s.srv) <==> s.log != [] && s.log[|s.log| - 1] == ClosedIt)
  {
    InitiallyInv();
    RunKeepsInv(INITIAL, acts);
  }

  lemma {:induction false} WaiterKeepsSnapshot(s: State, acts: seq<Action>, k: nat)
    requires Possible(s, acts) && k < |s.waiters|
    ensures var t := RunFrom(s, acts);
            k < |t.waiters| && t.waiters[k].serves == s.waiters[k].serves && t.waiters[k].conns == s.waiters[k].conns
    decreases |acts|
  {
    if acts == [] {
    } else {
      WaiterKeepsSnapshot(Apply(s, acts[0]), acts[1..], k);
    }
  }

  lemma ShutdownJoinsFrom(s: State, later: seq<Action>)
    requires Inv(s) && Possible(Apply(s, ShutsDown), later)
    ensures var t := RunFrom(Apply(s, ShutsDown), later);
            |s.waiters| < |t.waiters| && (t.waiters[|s.waiters|].stage.Finished? ==>
              && (forall id :: id in Active(s.serves) ==> id in t.serves && t.serves[id].phase.Left?)
              && s.live !! t.live)
  {
    var u, k := Apply(s, ShutsDown), |s.waiters|;
    ApplyKeepsInv(s, ShutsDown);
    RunKeepsInv(u, later);
    WaiterKeepsSnapshot(u, later, k);
    assert u.waiters[k] == Waiter(ForListeners, Active(s.serves), s.live);
    assert Joined(RunFrom(u, later), RunFrom(u, later).waiters[k]);
  }

  /** When a Shutdown returns through `finished`, every Serve call and every tracked connection
      that was active when it held the lock has ended. */
  lemma ShutdownJoins(before: seq<Action>, later: seq<Action>)
    requires Possible(INITIAL, before) && Possible(Apply(RunFrom(INITIAL, before), ShutsDown), later)
    ensures var s := RunFrom(INITIAL, before);
            var t := RunFrom(Apply(s, ShutsDown), later);
            |s.waiters| < |t.waiters| && (t.waiters[|s.waiters|].stage.Finished? ==>
              && (forall id :: id in Active(s.serves) ==> id in t.serves && t.serves[id].phase.Left?)
              && s.live !! t.live)
  {
    InitiallyInv();
    RunKeepsInv(INITIAL, before);
    ShutdownJoinsFrom(RunFrom(INITIAL, before), later);
  }

  /** A Serve call has accepted the connection, or HandleConn was called with it. */
  predicate Arrived(acts: seq<Action>, c: ConnId) {
    ConnHanded(c) in acts || exists i :: 0 <= i < |acts| && acts[i].AcceptOk? && acts[i].c == c
  }

  /** Where a connection is, told from the steps that have happened. */
  predicate ConnTold(s: State, acts: seq<Action>, c: ConnId) {
    && (c in s.shaking <==> Arrived(acts, c) && ConnTracks(c) !in acts && HandshakeFails(c) !in acts)
    && (c in s.live <==> ConnTracks(c) in acts && ConnEnds(c) !in acts)
    && (c in s.gone <==> HandshakeFails(c) in acts || ConnEnds(c) in acts)
    && (ConnTracks(c) in acts || HandshakeFails(c) in acts ==> Arrived(acts, c))
    && (ConnEnds(c) in acts ==> ConnTracks(c) in acts)
    && !(ConnTracks(c) in acts && HandshakeFails(c) in acts)
  }

  lemma ArrivedGrows(acts: seq<Action>, a: Action, c: ConnId)
    ensures Arrived(acts + [a], c) <==> Arrived(acts, c) || a == ConnHanded(c) || (a.AcceptOk? && a.c == c)
  {
    if Arrived(acts, c) && ConnHanded(c) !in acts {
      var i :| 0 <= i < |acts| && acts[i].AcceptOk? && acts[i].c == c;
      assert (acts + [a])[i] == acts[i];
    }
    if a.AcceptOk? && a.c == c { assert (acts + [a])[|acts|] == a; }
  }

  lemma StepTellsConn(s: State, acts: seq<Action>, a: Action, c: ConnId)
    requires ConnTold(s, acts, c) && Enabled(s, a)
    ensures ConnTold(Apply(s, a), acts + [a], c)
  {
    ArrivedGrows(acts, a, c);
    assert forall b :: b in acts + [a] <==> b in acts || b == a;
  }

  lemma {:induction false} ConnToldFrom(s: State, past: seq<Action>, acts: seq<Action>, c: ConnId)
    requires ConnTold(s, past, c) && Possible(s, acts)
    ensures ConnTold(RunFrom(s, acts), past + acts, c)
    decreases |acts|
  {
    if acts == [] {
      assert past + acts == past;
    } else {
      StepTellsConn(s, past, acts[0], c);
      ConnToldFrom(Apply(s, acts[0]), past + [acts[0]], acts[1..], c);
      assert past + [acts[0]] + acts[1..] == past + acts;
    }
  }

  /** Over all runs a connection is in its handshake, tracked or ended exactly as the steps of the
      run say. */
  lemma ConnectionsAreTold(acts: seq<Action>, c: ConnId)
    requires Possible(INITIAL, acts)
    ensures ConnTold(RunFrom(INITIAL, acts), acts, c)
  {
    ConnToldFrom(INITIAL, [], acts, c);
    assert [] + acts == acts;
  }

  // ---------------------------------------------------------------- what Close and Shutdown close

  /** The connections in the map are the live ones that no Close has closed. */
  predicate ConnsUncut(s: State) {
    s.srv.conns == s.live - s.srv.cut && s.srv.cut <= s.live + s.gone
  }

  /** A Serve call on listener `ln` has returned. */
  predicate LeftWith(s: State, ln: Ln) {
    exists id :: id in s.serves && s.serves[id].phase.Left? && s.serves[id].ln == ln
  }

  predicate ServesOn(s: State, ln: Ln) {
    exists id :: id in s.serves && !s.serves[id].phase.Left? && s.serves[id].ln == ln
  }

  /** The listeners in the map are being served; one that is served is in it, or has been closed, or
      was taken out when another call on it returned. */
  predicate ListenersServed(s: State) {
    && (forall ln :: ln in s.srv.listeners ==> ServesOn(s, ln))
    && (forall id :: id in s.serves && !s.serves[id].phase.Left? ==>
          s.serves[id].ln in s.srv.listeners || s.serves[id].ln in s.srv.shut || LeftWith(s, s.serves[id].ln))
  }

  predicate PhasesApart(s: State) {
    s.live !! s.gone && s.shaking !! s.live && s.shaking !! s.gone
  }

  lemma TrackKeepsUncut(s: State, c: ConnId)
    requires PhasesApart(s) && ConnsUncut(s) && Enabled(s, ConnTracks(c))
    ensures ConnsUncut(Apply(s, ConnTracks(c)))
  {
    var t := Apply(s, ConnTracks(c));
    assert c !in s.srv.cut;
    assert t.live - t.srv.cut == (s.live - s.srv.cut) + {c};
  }

  lemma EndKeepsUncut(s: State, c: ConnId)
    requires ConnsUncut(s) && Enabled(s, ConnEnds(c))
    ensures ConnsUncut(Apply(s, ConnEnds(c)))
  {
    var t := Apply(s, ConnEnds(c));
    assert t.live - t.srv.cut == (s.live - s.srv.cut) - {c};
    assert t.live + t.gone == s.live + s.gone;
  }

  lemma ApplyKeepsUncut(s: State, a: Action)
    requires PhasesApart(s) && ConnsUncut(s) && Enabled(s, a)
    ensures ConnsUncut(Apply(s, a))
  {
    var t := Apply(s, a);
    match a
    case ConnTracks(c) => TrackKeepsUncut(s, c);
    case ConnEnds(c) => EndKeepsUncut(s, c);
    case Closes => assert t.srv.cut == s.srv.cut + s.srv.conns && t.srv.conns == {};
    case _ => assert t.srv.conns == s.srv.conns && t.srv.cut == s.srv.cut && t.live == s.live && s.gone <= t.gone;
  }

  lemma ServeStepsKeepListeners(s: State, a: Action)
    requires ListenersServed(s) && Enabled(s, a) && (a.ServeTracks? || a.Untracks?)
    ensures ListenersServed(Apply(s, a))
  {
    var t := Apply(s, a);
    var ln := t.serves[a.id].ln;
    assert forall id :: id in s.serves && id != a.id ==> id in t.serves && t.serves[id] == s.serves[id];
    forall l | l in t.srv.listeners ensures ServesOn(t, l) {
      if a.ServeTracks? && l == ln {
        assert !t.serves[a.id].phase.Left?;
      } else {
        var id :| id in s.serves && !s.serves[id].phase.Left? && s.serves[id].ln == l;
        assert id != a.id;
      }
    }
    forall id | id in t.serves && !t.serves[id].phase.Left?
      ensures t.serves[id].ln in t.srv.listeners || t.serves[id].ln in t.srv.shut || LeftWith(t, t.serves[id].ln)
    {
      if id != a.id {
        assert t.serves[id] == s.serves[id];
        if LeftWith(s, s.serves[id].ln) {
          var other :| other in s.serves && s.serves[other].phase.Left? && s.serves[other].ln == s.serves[id].ln;
          assert other != a.id;
        }
        if a.Untracks? && s.serves[id].ln == ln { assert t.serves[a.id].phase.Left?; }
      }
    }
  }

  /** A call keeps its listener, and whether it has returned, in every step but its own first and last. */
  lemma OthersKeepLeaving(s: State, a: Action)
    requires Enabled(s, a) && !a.ServeTracks? && !a.Untracks?
    ensures var t := Apply(s, a);
            && t.serves.Keys == s.serves.Keys
            && (forall id :: id in s.serves ==>
                  t.serves[id].ln == s.serves[id].ln && (t.serves[id].phase.Left? <==> s.serves[id].phase.Left?))
            && ((t.srv.listeners == s.srv.listeners && t.srv.shut == s.srv.shut)
                || (t.srv.listeners == {} && t.srv.shut == s.srv.shut + s.srv.listeners))
  {
  }

  lemma CarriedListenersServed(s: State, t: State)
    requires ListenersServed(s) && t.serves.Keys == s.serves.Keys
    requires forall id :: id in s.serves ==>
               t.serves[id].ln == s.serves[id].ln && (t.serves[id].phase.Left? <==> s.serves[id].phase.Left?)
    requires || (t.srv.listeners == s.srv.listeners && t.srv.shut == s.srv.shut)
             || (t.srv.listeners == {} && t.srv.shut == s.srv.shut + s.srv.listeners)
    ensures ListenersServed(t)
  {
    forall l | l in t.srv.listeners ensures ServesOn(t, l) {
      var id :| id in s.serves && !s.serves[id].phase.Left? && s.serves[id].ln == l;
      assert id in t.serves;
    }
    forall id | id in t.serves && !t.serves[id].phase.Left?
      ensures t.serves[id].ln in t.srv.listeners || t.serves[id].ln in t.srv.shut || LeftWith(t, t.serves[id].ln)
    {
      assert id in s.serves;
      if LeftWith(s, s.serves[id].ln) {
        var other :| other in s.serves && s.serves[other].phase.Left? && s.serves[other].ln == s.serves[id].ln;
        assert other in t.serves;
      }
    }
  }

  lemma {:induction false} RunKeepsTracking(s: State, acts: seq<Action>)
    requires ConnsCounted(s) && ConnsUncut(s) && ListenersServed(s) && Possible(s, acts)
    ensures ConnsUncut(RunFrom(s, acts)) && ListenersServed(RunFrom(s, acts))
    decreases |acts|
  {
    if acts == [] {
    } else {
      var a, t := acts[0], Apply(s, acts[0]);
      ApplyKeepsConnsCounted(s, a);
      ApplyKeepsUncut(s, a);
      if a.ServeTracks? || a.Untracks? {
        ServeStepsKeepListeners(s, a);
      } else {
        OthersKeepLeaving(s, a);
        CarriedListenersServed(s, t);
      }
      RunKeepsTracking(t, acts[1..]);
    }
  }

  /** Over all runs the connections that Close would close are the live ones that no earlier Close
      has; the listeners that Close and Shutdown would close are being served, and every Serve
      call's listener is among them, is closed already, or was taken out when another call on the
      same listener returned. */
  lemma TrackedIsWhatRuns(acts: seq<Action>)
    requires Possible(INITIAL, acts)
    ensures ConnsUncut(RunFrom(INITIAL, acts)) && ListenersServed(RunFrom(INITIAL, acts))
  {
    RunKeepsTracking(INITIAL, acts);
  }

  /** After a Close every connection that was tracked is closed, and so is the listener of every
      Serve call, but for one whose listener another call has taken out. After a Shutdown took the
      lock the latter holds too, and no connection has been closed by it. */
  lemma CloseClosesEverything(acts: seq<Action>)
    requires Possible(INITIAL, acts)
    ensures var s := RunFrom(INITIAL, acts);
            var t := Apply(s, Closes);
            && t.live == s.live && s.live <= t.srv.cut && t.srv.conns == {} && t.srv.listeners == {}
            && (forall id :: id in s.serves && !s.serves[id].phase.Left? ==>
                  s.serves[id].ln in t.srv.shut || LeftWith(s, s.serves[id].ln))
    ensures var s := RunFrom(INITIAL, acts);
            var t := Apply(s, ShutsDown);
            && t.live == s.live && t.srv.cut == s.srv.cut && t.srv.conns == s.srv.conns && t.srv.listeners == {}
            && (forall id :: id in s.serves && !s.serves[id].phase.Left? ==>
                  s.serves[id].ln in t.srv.shut || LeftWith(s, s.serves[id].ln))
  {
    TrackedIsWhatRuns(acts);
  }

  /** No Serve call accepts a connection on a listener that has been closed. */
  lemma {:induction false} ClosedAcceptsNothing(s: State, acts: seq<Action>, id: ServeId, c: ConnId)
    requires Possible(s, acts) && id in s.serves && s.serves[id].ln in s.srv.shut
    ensures AcceptOk(id, c) !in acts
    decreases |acts|
  {
    if acts == [] {
    } else {
      var t := Apply(s, acts[0]);
      assert id in t.serves && t.serves[id].ln == s.serves[id].ln && s.srv.shut <= t.srv.shut;
      ClosedAcceptsNothing(t, acts[1..], id, c);
      assert acts == [acts[0]] + acts[1..];
    }
  }

  /** After a Close or a Shutdown nothing is accepted on the listener of a Serve call that ran then. */
  lemma NothingAcceptedAfterClose(before: seq<Action>, close: Action, later: seq<Action>, id: ServeId, c: ConnId)
    requires Possible(INITIAL, before) && (close.Closes? || close.ShutsDown?)
    requires Possible(Apply(RunFrom(INITIAL, before), close), later)
    requires var s := RunFrom(INITIAL, before);
             id in s.serves && !s.serves[id].phase.Left? && !LeftWith(s, s.serves[id].ln)
    ensures AcceptOk(id, c) !in later
  {
    CloseClosesEverything(before);
    ClosedAcceptsNothing(Apply(RunFrom(INITIAL, before), close), later, id, c);
  }

  // ---------------------------------------------------------------- connections in their handshake

  /** A connection leaves its handshake by being tracked or by failing, and never returns to it. */
  predicate LeavesHandshake(acts: seq<Action>, c: ConnId) {
    ConnTracks(c) in acts || HandshakeFails(c) in acts
  }

  lemma {:induction false} StaysOutOfHandshake(s: State, acts: seq<Action>, c: ConnId)
    requires Possible(s, acts) && (c in s.live || c in s.gone) && c !in s.shaking
    ensures var t := RunFrom(s, acts); (c in t.live || c in t.gone) && c !in t.shaking
    decreases |acts|
  {
    if acts == [] {
    } else {
      StaysOutOfHandshake(Apply(s, acts[0]), acts[1..], c);
    }
  }

  lemma {:induction false} HandshakeFate(s: State, acts: seq<Action>, c: ConnId)
    requires Possible(s, acts) && c in s.shaking
    ensures var t := RunFrom(s, acts);
            if LeavesHandshake(acts, c) then (c in t.live || c in t.gone) && c !in t.shaking else c in t.shaking
    decreases |acts|
  {
    if acts == [] {
    } else {
      assert acts == [acts[0]] + acts[1..];
      if acts[0] == ConnTracks(c) || acts[0] == HandshakeFails(c) {
        StaysOutOfHandshake(Apply(s, acts[0]), acts[1..], c);
      } else {
        HandshakeFate(Apply(s, acts[0]), acts[1..], c);
      }
    }
  }

  /** A connection that was accepted before a Shutdown took the lock, and was still in its
      handshake then, has ended when that Shutdown is done waiting exactly when it was tracked or
      its handshake failed before the last wait was over; one that was tracked before has always
      ended. */
  lemma WhenShutdownWaitsFor(before: seq<Action>, between: seq<Action>, c: ConnId)
    requires Possible(INITIAL, before) && Possible(Apply(RunFrom(INITIAL, before), ShutsDown), between)
    requires var s := RunFrom(INITIAL, before);
             && (c in s.shaking || c in s.live)
             && Enabled(RunFrom(Apply(s, ShutsDown), between), ConnsDone(|s.waiters|))
    ensures var s := RunFrom(INITIAL, before);
            var t := Apply(RunFrom(Apply(s, ShutsDown), between), ConnsDone(|s.waiters|));
            c in t.gone <==> c in s.live || LeavesHandshake(between, c)
  {
    var s := RunFrom(INITIAL, before);
    var u := RunFrom(Apply(s, ShutsDown), between);
    InitiallyInv();
    RunKeepsInv(INITIAL, before);
    ApplyKeepsInv(s, ShutsDown);
    RunKeepsInv(Apply(s, ShutsDown), between);
    assert u.live == {};
    if c in s.shaking {
      HandshakeFate(Apply(s, ShutsDown), between, c);
    } else {
      StaysOutOfHandshake(Apply(s, ShutsDown), between, c);
    }
  }

  // ---------------------------------------------------------------- what Serve returns

  /** Until it decides, a Serve call keeps the channel it holds, and the record only grows. */
  lemma {:induction false} HoldsUntilDecided(s: State, acts: seq<Action>, id: ServeId)
    requires Possible(s, acts) && id in s.serves && s.serves[id].phase.Holding? && Decides(id) !in acts
    ensures var t := RunFrom(s, acts);
            id in t.serves && t.serves[id].phase == s.serves[id].phase
    decreases |acts|
  {
    if acts == [] {
    } else {
      assert acts[0] != Decides(id) && forall a :: a in acts[1..] ==> a in acts;
      HoldsUntilDecided(Apply(s, acts[0]), acts[1..], id);
    }
  }

  lemma {:induction false} RecordsGrow(s: State, acts: seq<Action>)
    requires Possible(s, acts)
    ensures var t := RunFrom(s, acts); s.srv.closings <= t.srv.closings && s.log <= t.log
    decreases |acts|
  {
    if acts == [] {
    } else {
      RecordsGrow(Apply(s, acts[0]), acts[1..]);
    }
  }

  /** A done channel that has been replaced is never closed. */
  lemma {:induction false} ReplacedStaysOpen(s: State, acts: seq<Action>, g: Gen)
    requires Possible(s, acts) && DoneAgrees(s) && g < s.srv.made && s.srv.done != Some(g) && g !in s.srv.closings
    ensures g !in RunFrom(s, acts).srv.closings
    decreases |acts|
  {
    if acts == [] {
    } else {
      var t := Apply(s, acts[0]);
      ApplyKeepsDone(s, acts[0]);
      assert g < t.srv.made && t.srv.done != Some(g) && g !in t.srv.closings;
      ReplacedStaysOpen(t, acts[1..], g);
    }
  }

  /** The first close or reset after `s`, as recorded in the log of a later state, is a close. */
  predicate ClosedNext(s: State, t: State) {
    |s.log| < |t.log| && t.log[|s.log|] == ClosedIt
  }

  /** A current, open done channel is closed by a close that no reset precedes. */
  lemma {:induction false} ClosedByTheNext(s: State, acts: seq<Action>, g: Gen)
    requires Possible(s, acts) && DoneAgrees(s) && s.srv.done == Some(g) && g !in s.srv.closings
    ensures g in RunFrom(s, acts).srv.closings <==> ClosedNext(s, RunFrom(s, acts))
    decreases |acts|
  {
    if acts == [] {
    } else {
      var a, t := acts[0], Apply(s, acts[0]);
      ApplyKeepsDone(s, a);
      RecordsGrow(t, acts[1..]);
      if a.Closes? || a.ShutsDown? {
        ClosingKeepsDone(s, a);
        assert t.srv.closings[|s.srv.closings|] == g;
      } else if a.ServeTracks? && Resets(s.srv) {
        assert t.log[|s.log|] == ResetIt;
        ReplacedStaysOpen(t, acts[1..], g);
      } else {
        if !a.ServeTracks? { OthersKeepDone(s, a); }
        assert t.log == s.log && t.srv.done == Some(g) && t.srv.closings == s.srv.closings;
        ClosedByTheNext(t, acts[1..], g);
      }
    }
  }

  /** What call `id` does when it asks for the done channel in `s`, `between` happens, and it
      decides. */
  function AnswerAfter(s: State, id: ServeId, between: seq<Action>): Phase
    requires Enabled(s, AsksDone(id)) && Possible(Apply(s, AsksDone(id)), between)
    requires Enabled(RunFrom(Apply(s, AsksDone(id)), between), Decides(id))
  {
    Apply(RunFrom(Apply(s, AsksDone(id)), between), Decides(id)).serves[id].phase
  }

  predicate LastWasClose(s: State) {
    s.log != [] && s.log[|s.log| - 1] == ClosedIt
  }

  lemma AnswerFrom(s: State, id: ServeId, between: seq<Action>)
    requires DoneAgrees(s)
    requires Enabled(s, AsksDone(id)) && Possible(Apply(s, AsksDone(id)), between) && Decides(id) !in between
    ensures var u := RunFrom(Apply(s, AsksDone(id)), between);
            && Enabled(u, Decides(id))
            && AnswerAfter(s, id, between)
               == if LastWasClose(s) || ClosedNext(s, u) then Leaving(ServerClosed)
                  else if s.serves[id].phase.temporary then Accepting else Leaving(RawError)
  {
    var t := Apply(s, AsksDone(id));
    HoldsUntilDecided(t, between, id);
    ApplyKeepsDone(s, AsksDone(id));
    RecordsGrow(t, between);
    if t.srv.done.value !in t.srv.closings { ClosedByTheNext(t, between, t.srv.done.value); }
  }

  /** A Serve call whose accept has failed asks for the done channel, other things happen, and
      it decides. It answers ErrServerClosed exactly when the last close or reset before the
      question was a close, or the first one after it, up to the decision, is; otherwise it goes
      on accepting after a temporary error and returns any other error as it is. */
  lemma ServeAnswers(before: seq<Action>, id: ServeId, between: seq<Action>)
    requires Possible(INITIAL, before)
    requires var s := RunFrom(INITIAL, before);
             Enabled(s, AsksDone(id)) && Possible(Apply(s, AsksDone(id)), between) && Decides(id) !in between
    ensures var s := RunFrom(INITIAL, before);
            var u := RunFrom(Apply(s, AsksDone(id)), between);
            && Enabled(u, Decides(id))
            && AnswerAfter(s, id, between)
               == if LastWasClose(s) || ClosedNext(s, u) then Leaving(ServerClosed)
                  else if s.serves[id].phase.temporary then Accepting else Leaving(RawError)
  {
    InitiallyInv();
    RunKeepsInv(INITIAL, before);
    AnswerFrom(RunFrom(INITIAL, before), id, between);
  }

  // ---------------------------------------------------------------- runs that show the limits

  lemma {:induction false} RunSnoc(s: State, acts: seq<Action>, a: Action)
    requires Possible(s, acts) && Enabled(RunFrom(s, acts), a)
    ensures Possible(s, acts + [a])
    ensures RunFrom(s, acts + [a]) == Apply(RunFrom(s, acts), a)
    decreases |acts|
  {
    if acts == [] {
      assert (acts + [a])[1..] == [];
    } else {
      assert (acts + [a])[1..] == acts[1..] + [a];
      RunSnoc(Apply(s, acts[0]), acts[1..], a);
    }
  }

  predicate Reaches(acts: seq<Action>, s: State) {
    Possible(INITIAL, acts) && RunFrom(INITIAL, acts) == s
  }

  lemma Then(acts: seq<Action>, s: State, a: Action) returns (longer: seq<Action>, t: State)
    requires Reaches(acts, s) && Enabled(s, a)
    ensures longer == acts + [a] && Reaches(longer, t) && t == Apply(s, a)
  {
    RunSnoc(INITIAL, acts, a);
    longer, t := acts + [a], Apply(s, a);
  }

  /** A run in which the server is closed while one Serve is in Accept, a second Serve resets
      the channel, and the first then returns the raw accept error. */
  lemma ResetHidesTheClose() returns (acts: seq<Action>, s: State)
    ensures Reaches(acts, s) && Closes in acts
    ensures 1 in s.serves && s.serves[1].phase == Leaving(RawError)
  {
    acts, s := Then([], INITIAL, ServeTracks(1, 10));
    acts, s := Then(acts, s, Closes);
    acts, s := Then(acts, s, ServeTracks(2, 20));
    acts, s := Then(acts, s, AcceptError(1, false));
    acts, s := Then(acts, s, AsksDone(1));
    acts, s := Then(acts, s, Decides(1));
    assert acts[1] == Closes;
  }

  /** A Serve accepts connection 7 and Shutdown takes the lock. */
  lemma ShutdownDuringHandshake() returns (acts: seq<Action>, s: State)
    ensures Reaches(acts, s) && acts == [ServeTracks(1, 10), AcceptOk(1, 7), ShutsDown]
    ensures s.serves == map[1 := Serving(10, Accepting)] && s.waiters == [Waiter(ForListeners, {1}, {})]
    ensures s.srv == Srv({}, {}, 1, 0, Some(0), 1, [0], {10}, {}) && s.shaking == {7} && s.live == {} && s.gone == {}
  {
    acts, s := Then([], INITIAL, ServeTracks(1, 10));
    acts, s := Then(acts, s, AcceptOk(1, 7));
    assert Active(s.serves) == {1};
    acts, s := Then(acts, s, ShutsDown);
  }

  /** After that the Serve returns. */
  lemma ServeReturnsUnderShutdown() returns (acts: seq<Action>, s: State)
    ensures Reaches(acts, s) && |acts| >= 3 && acts[1] == AcceptOk(1, 7) && acts[2] == ShutsDown
    ensures s.serves == map[1 := Serving(10, Left(ServerClosed))] && s.waiters == [Waiter(ForListeners, {1}, {})]
    ensures s.srv.listenerWg == 0 && s.srv.connWg == 0 && s.shaking == {7} && s.live == {}
  {
    acts, s := ShutdownDuringHandshake();
    acts, s := Then(acts, s, AcceptError(1, false));
    acts, s := Then(acts, s, AsksDone(1));
    acts, s := Then(acts, s, Decides(1));
    acts, s := Then(acts, s, Untracks(1));
  }

  /** A run in which a Serve accepts connection 7, the Serve has returned and Shutdown is done
      waiting, and 7 is tracked only then: its handshake was not waited for. */
  lemma ShutdownMissesHandshakes() returns (acts: seq<Action>, s: State)
    ensures Reaches(acts, s) && |acts| >= 3 && acts[1] == AcceptOk(1, 7) && acts[2] == ShutsDown
    ensures |s.waiters| == 1 && s.waiters[0].stage.Finished? && 7 in s.live
    ensures 1 in s.serves && s.serves[1].phase == Left(ServerClosed)
  {
    acts, s := ServeReturnsUnderShutdown();
    acts, s := Then(acts, s, ListenersDone(0));
    acts, s := Then(acts, s, ConnsDone(0));
    acts, s := Then(acts, s, ConnTracks(7));
  }
}
