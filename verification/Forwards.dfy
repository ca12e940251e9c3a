/** Remote forwards (streamlocal.go, tcpip.go): the address-to-listener map that many
    connections share, with its check-then-act gaps, cancellations and background cleanups. */
module Forwards {
  import opened Basics

  type Addr = string
  type Conn = nat
  type Id = nat

  datatype Variant = Unix | Tcp

  /** A listener's accept loop: not started yet, accepting, broken off by an accept error,
      past the map cleanup, finished. */
  datatype Phase = Bound | Serving | Broken | Cleaned | Finished

  datatype Listener = Listener(addr: Addr, owner: Conn, open: bool, phase: Phase)

  /** A connection's request loop, between its steps. Ephemeral is a TCP request for port 0. */
  datatype Pc = Idle | Wants(addr: Addr) | WantsEphemeral | HasListener(id: Id) | Cancelling(id: Id)

  /** `ls` holds every listener ever opened; an Id is a position in it. `watched` are the
      TCP context watchers that have looked up the listener they are about to close; `regs` are
      the registrations so far, in order. */
  datatype State = State(
    ls: seq<Listener>, forwards: map<Addr, Id>, pcs: map<Conn, Pc>, ended: set<Conn>, watched: map<Id, Id>,
    regs: seq<(Addr, Id)>)

  const INITIAL := State([], map[], map[], {}, map[], [])

  function PcOf(s: State, c: Conn): Pc {
    if c in s.pcs then s.pcs[c] else Idle
  }

  // ---------------------------------------------------------------- the lock sections

  function Lookup(forwards: map<Addr, Id>, addr: Addr): Option<Id> {
    if addr in forwards then Some(forwards[addr]) else None
  }

  /** The Unix cleanup removes its own entry only. */
  function CleanOwn(forwards: map<Addr, Id>, addr: Addr, id: Id): map<Addr, Id> {
    if addr in forwards && forwards[addr] == id then forwards - {addr} else forwards
  }

  /** The TCP cleanup removes whatever is there. */
  function CleanAny(forwards: map<Addr, Id>, addr: Addr): map<Addr, Id> {
    forwards - {addr}
  }

  // ---------------------------------------------------------------- steps

  datatype Action =
    | Request(c: Conn, addr: Addr)         // the Unix look-up; TCP starts without one
    | RequestEphemeral(c: Conn)
    | Listen(c: Conn, addr: Addr)          // net.Listen succeeds
    | ListenFails(c: Conn)
    | Register(c: Conn)
    | Cancel(c: Conn, addr: Addr)          // the look-up of a cancel request
    | CancelCloses(c: Conn)
    | Ends(c: Conn)                        // the connection's context ends
    | WatcherLooks(id: Id)                 // TCP only
    | WatcherCloses(id: Id)
    | AcceptFails(id: Id)
    | Cleanup(id: Id)
    | Finish(id: Id)

  predicate AddrFree(s: State, addr: Addr) {
    forall i :: 0 <= i < |s.ls| ==> s.ls[i].open ==> s.ls[i].addr != addr
  }

  /** An address can be bound once at a time. A Unix watcher fires when the connection or the
      accept loop (whose deferred cancel runs after Finish) has ended. */
  predicate Enabled(v: Variant, s: State, a: Action) {
    match a
    case Request(c, addr) => PcOf(s, c).Idle?
    case RequestEphemeral(c) => v.Tcp? && PcOf(s, c).Idle?
    case Listen(c, addr) => (PcOf(s, c) == Wants(addr) || PcOf(s, c).WantsEphemeral?) && AddrFree(s, addr)
    case ListenFails(c) => PcOf(s, c).Wants? || PcOf(s, c).WantsEphemeral?
    case Register(c) => PcOf(s, c).HasListener? && PcOf(s, c).id < |s.ls|
    case Cancel(c, addr) => PcOf(s, c).Idle?
    case CancelCloses(c) => PcOf(s, c).Cancelling? && PcOf(s, c).id < |s.ls|
    case Ends(c) => true
    case WatcherLooks(id) =>
      v.Tcp? && id < |s.ls| && !s.ls[id].phase.Bound? && s.ls[id].owner in s.ended && id !in s.watched
    case WatcherCloses(id) =>
      id < |s.ls| && !s.ls[id].phase.Bound?
      && if v.Unix? then s.ls[id].owner in s.ended || s.ls[id].phase.Finished?
         else id in s.watched && s.watched[id] < |s.ls|
    case AcceptFails(id) => id < |s.ls| && s.ls[id].phase.Serving?
    case Cleanup(id) => id < |s.ls| && s.ls[id].phase.Broken?
    case Finish(id) => id < |s.ls| && s.ls[id].phase.Cleaned?
  }

  function SetPc(s: State, c: Conn, pc: Pc): State {
    s.(pcs := s.pcs[c := pc])
  }

  function Close(s: State, id: Id): State
    requires id < |s.ls|
  {
    s.(ls := s.ls[id := s.ls[id].(open := false)])
  }

  function SetPhase(s: State, id: Id, phase: Phase): State
    requires id < |s.ls|
  {
    s.(ls := s.ls[id := s.ls[id].(phase := phase)])
  }

  function Apply(v: Variant, s: State, a: Action): State
    requires Enabled(v, s, a)
  {
    match a
    case Request(c, addr) =>
      if v.Unix? && Lookup(s.forwards, addr).Some? then s else SetPc(s, c, Wants(addr))
    case RequestEphemeral(c) => SetPc(s, c, WantsEphemeral)
    case Listen(c, addr) =>
      SetPc(s.(ls := s.ls + [Listener(addr, c, true, Bound)]), c, HasListener(|s.ls|))
    case ListenFails(c) => SetPc(s, c, Idle)
    case Register(c) =>
      var id := PcOf(s, c).id;
      var t := s.(forwards := s.forwards[s.ls[id].addr := id], regs := s.regs + [(s.ls[id].addr, id)]);
      SetPhase(SetPc(t, c, Idle), id, Serving)
    case Cancel(c, addr) =>
      var found := Lookup(s.forwards, addr);
      if found.Some? then SetPc(s, c, Cancelling(found.value)) else s
    case CancelCloses(c) => SetPc(Close(s, PcOf(s, c).id), c, Idle)
    case Ends(c) => s.(ended := s.ended + {c})
    case WatcherLooks(id) =>
      var found := Lookup(s.forwards, s.ls[id].addr);
      if found.Some? then s.(watched := s.watched[id := found.value]) else s
    case WatcherCloses(id) => if v.Unix? then Close(s, id) else Close(s, s.watched[id])
    case AcceptFails(id) => SetPhase(s, id, Broken)
    case Cleanup(id) =>
      var addr := s.ls[id].addr;
      var left := if v.Unix? then CleanOwn(s.forwards, addr, id) else CleanAny(s.forwards, addr);
      SetPhase(s.(forwards := left), id, Cleaned)
    case Finish(id) => if v.Unix? then SetPhase(Close(s, id), id, Finished) else SetPhase(s, id, Finished)
  }

  // ---------------------------------------------------------------- the invariant

  /** The accept loop runs and its own cleanup has not happened. */
  predicate Registered(l: Listener) {
    l.phase.Serving? || l.phase.Broken?
  }

  /** The map names only listeners whose accept loop has not been cleaned up. */
  predicate MapFormed(s: State) {
    forall a :: a in s.forwards ==>
      s.forwards[a] < |s.ls| && s.ls[s.forwards[a]].addr == a && Registered(s.ls[s.forwards[a]])
  }

  predicate HoldersFormed(s: State) {
    forall c :: c in s.pcs && s.pcs[c].HasListener? ==>
      s.pcs[c].id < |s.ls| && s.ls[s.pcs[c].id].phase.Bound? && s.ls[s.pcs[c].id].owner == c
  }

  predicate CancellersFormed(s: State) {
    forall c :: c in s.pcs && s.pcs[c].Cancelling? ==>
      s.pcs[c].id < |s.ls| && !s.ls[s.pcs[c].id].phase.Bound?
  }

  predicate PcsFormed(s: State) {
    HoldersFormed(s) && CancellersFormed(s)
  }

  predicate WatchedFormed(s: State) {
    forall i :: i in s.watched ==>
      && i < |s.ls| && !s.ls[i].phase.Bound?
      && s.watched[i] < |s.ls| && !s.ls[s.watched[i]].phase.Bound? && s.ls[s.watched[i]].addr == s.ls[i].addr
  }

  predicate WellFormed(s: State) {
    MapFormed(s) && PcsFormed(s) && WatchedFormed(s)
  }

  /** At most one open listener per address, and one not yet registered is still open. */
  predicate Exclusive(s: State) {
    && (forall i, j :: 0 <= i < j < |s.ls| && s.ls[i].open && s.ls[j].open ==> s.ls[i].addr != s.ls[j].addr)
    && (forall i :: 0 <= i < |s.ls| && s.ls[i].phase.Bound? ==> s.ls[i].open)
  }

  /** Every registered listener that is still open is what the map says for its address. */
  predicate Agrees(s: State) {
    forall i :: 0 <= i < |s.ls| && s.ls[i].open && Registered(s.ls[i]) ==>
      s.ls[i].addr in s.forwards && s.forwards[s.ls[i].addr] == i
  }

  predicate Inv(s: State) {
    WellFormed(s) && Exclusive(s) && Agrees(s)
  }

  /** Listeners keep their address and owner and do not reopen; only a registration takes one out
      of Bound. */
  lemma ListenersStay(v: Variant, s: State, a: Action)
    requires Enabled(v, s, a)
    ensures var t := Apply(v, s, a);
            && |t.ls| >= |s.ls|
            && (forall i :: 0 <= i < |s.ls| ==>
                  t.ls[i].addr == s.ls[i].addr && t.ls[i].owner == s.ls[i].owner
                  && (!s.ls[i].phase.Bound? ==> !t.ls[i].phase.Bound?)
                  && (!a.Register? && s.ls[i].phase.Bound? ==> t.ls[i].phase.Bound?))
            && (forall i :: 0 <= i < |s.ls| && t.ls[i].open ==> s.ls[i].open)
            && (forall i :: |s.ls| <= i < |t.ls| ==> t.ls[i].phase.Bound?)
  {
  }

  lemma ApplyKeepsMap(v: Variant, s: State, a: Action)
    requires MapFormed(s) && PcsFormed(s) && Enabled(v, s, a)
    ensures MapFormed(Apply(v, s, a))
  {
  }

  lemma ApplyKeepsHolders(v: Variant, s: State, a: Action)
    requires MapFormed(s) && HoldersFormed(s) && Enabled(v, s, a)
    ensures HoldersFormed(Apply(v, s, a))
  {
  }

  lemma ApplyKeepsCancellers(v: Variant, s: State, a: Action)
    requires MapFormed(s) && CancellersFormed(s) && Enabled(v, s, a)
    ensures CancellersFormed(Apply(v, s, a))
  {
  }

  lemma LookKeepsWatched(s: State, id: Id)
    requires MapFormed(s) && WatchedFormed(s) && Enabled(Tcp, s, WatcherLooks(id))
    ensures WatchedFormed(Apply(Tcp, s, WatcherLooks(id)))
  {
  }

  lemma ApplyKeepsWatched(v: Variant, s: State, a: Action)
    requires MapFormed(s) && WatchedFormed(s) && Enabled(v, s, a)
    ensures WatchedFormed(Apply(v, s, a))
  {
    if a.WatcherLooks? {
      LookKeepsWatched(s, a.id);
    } else {
      ListenersStay(v, s, a);
      assert Apply(v, s, a).watched == s.watched;
    }
  }

  lemma ApplyKeepsWellFormed(v: Variant, s: State, a: Action)
    requires WellFormed(s) && Enabled(v, s, a)
    ensures WellFormed(Apply(v, s, a))
  {
    ApplyKeepsMap(v, s, a);
    ApplyKeepsHolders(v, s, a);
    ApplyKeepsCancellers(v, s, a);
    ApplyKeepsWatched(v, s, a);
  }

  lemma ListenKeepsExclusive(v: Variant, s: State, c: Conn, addr: Addr)
    requires Exclusive(s) && Enabled(v, s, Listen(c, addr))
    ensures Exclusive(Apply(v, s, Listen(c, addr)))
  {
  }

  /** Only listeners past Bound are closed. */
  lemma BoundStayOpen(v: Variant, s: State, a: Action)
    requires WellFormed(s) && Exclusive(s) && Enabled(v, s, a)
    ensures var t := Apply(v, s, a);
            forall i :: 0 <= i < |t.ls| && t.ls[i].phase.Bound? ==> t.ls[i].open
  {
  }

  lemma ApplyKeepsExclusive(v: Variant, s: State, a: Action)
    requires WellFormed(s) && Exclusive(s) && Enabled(v, s, a)
    ensures Exclusive(Apply(v, s, a))
  {
    if a.Listen? {
      ListenKeepsExclusive(v, s, a.c, a.addr);
    } else {
      ListenersStay(v, s, a);
      BoundStayOpen(v, s, a);
      assert |Apply(v, s, a).ls| == |s.ls|;
    }
  }

  /** No other registered listener is open at the address of `id`. */
  predicate NoOtherOpen(s: State, id: Id) {
    id < |s.ls|
    && forall i :: 0 <= i < |s.ls| && i != id && s.ls[i].open && Registered(s.ls[i]) ==> s.ls[i].addr != s.ls[id].addr
  }

  lemma RegisterAgrees(v: Variant, s: State, c: Conn)
    requires Inv(s) && Enabled(v, s, Register(c))
    ensures Agrees(Apply(v, s, Register(c)))
  {
  }

  lemma CleanupAgrees(v: Variant, s: State, id: Id)
    requires Inv(s) && Enabled(v, s, Cleanup(id)) && (v.Tcp? ==> NoOtherOpen(s, id))
    ensures Agrees(Apply(v, s, Cleanup(id)))
  {
  }

  lemma ApplyKeepsAgrees(v: Variant, s: State, a: Action)
    requires Inv(s) && Enabled(v, s, a)
    requires v.Tcp? && a.Cleanup? ==> NoOtherOpen(s, a.id)
    ensures Agrees(Apply(v, s, a))
  {
    match a
    case Register(c) => RegisterAgrees(v, s, c);
    case Cleanup(id) => CleanupAgrees(v, s, id);
    case _ =>
  }

  /** The entry at the address of `id` is missing, is its own, or names a closed listener. */
  predicate DeletesNothingOpen(s: State, id: Id)
    requires id < |s.ls|
  {
    var found := Lookup(s.forwards, s.ls[id].addr);
    found.None? || found.value == id || (found.value < |s.ls| && !s.ls[found.value].open)
  }

  /** Exactly when TCP's unconditional delete is safe. */
  lemma WhenTcpCleanupIsSafe(s: State, id: Id)
    requires Inv(s) && Enabled(Tcp, s, Cleanup(id))
    ensures Agrees(Apply(Tcp, s, Cleanup(id))) <==> DeletesNothingOpen(s, id)
    ensures NoOtherOpen(s, id) <==> DeletesNothingOpen(s, id)
  {
    var t, addr := Apply(Tcp, s, Cleanup(id)), s.ls[id].addr;
    if DeletesNothingOpen(s, id) {
      ApplyKeepsAgrees(Tcp, s, Cleanup(id));
    } else {
      var i := s.forwards[addr];
      assert s.ls[i].open && Registered(s.ls[i]) && s.ls[i].addr == addr;
      assert t.ls[i] == s.ls[i] && t.ls[i].addr !in t.forwards;
    }
  }

  // ---------------------------------------------------------------- runs

  predicate Possible(v: Variant, s: State, acts: seq<Action>)
    decreases |acts|
  {
    acts == [] || (Enabled(v, s, acts[0]) && Possible(v, Apply(v, s, acts[0]), acts[1..]))
  }

  function RunFrom(v: Variant, s: State, acts: seq<Action>): State
    requires Possible(v, s, acts)
    decreases |acts|
  {
    if acts == [] then s else RunFrom(v, Apply(v, s, acts[0]), acts[1..])
  }

  lemma {:induction false} UnixRunKeepsInv(s: State, acts: seq<Action>)
    requires Inv(s) && Possible(Unix, s, acts)
    ensures Inv(RunFrom(Unix, s, acts))
    decreases |acts|
  {
    if acts == [] {
    } else {
      ApplyKeepsWellFormed(Unix, s, acts[0]);
      ApplyKeepsExclusive(Unix, s, acts[0]);
      ApplyKeepsAgrees(Unix, s, acts[0]);
      UnixRunKeepsInv(Apply(Unix, s, acts[0]), acts[1..]);
    }
  }

  /** Over all interleavings and any number of connections, every registered Unix listener
      that is still open is exactly the map's entry for its address, the map names no
      listener past its cleanup, and no address has two open listeners. */
  lemma UnixMapAgreesWithListeners(acts: seq<Action>)
    requires Possible(Unix, INITIAL, acts)
    ensures var s := RunFrom(Unix, INITIAL, acts);
            && Agrees(s) && Exclusive(s)
            && (forall a :: a in s.forwards ==> s.forwards[a] < |s.ls| && Registered(s.ls[s.forwards[a]])
                                                && s.ls[s.forwards[a]].addr == a)
  {
    UnixRunKeepsInv(INITIAL, acts);
  }

  /** The late cleanup of an old Unix listener never removes a newer one. */
  lemma UnixCleanupSparesOthers(acts: seq<Action>, id: Id)
    requires Possible(Unix, INITIAL, acts) && Enabled(Unix, RunFrom(Unix, INITIAL, acts), Cleanup(id))
    ensures var s := RunFrom(Unix, INITIAL, acts);
            var t := Apply(Unix, s, Cleanup(id));
            && (forall a :: a in s.forwards && s.forwards[a] != id ==>
                  a in t.forwards && t.forwards[a] == s.forwards[a])
            && (forall a :: a in t.forwards ==> t.forwards[a] != id)
            && (forall i :: 0 <= i < |t.ls| && t.ls[i].open && Registered(t.ls[i]) ==>
                  t.ls[i].addr in t.forwards && t.forwards[t.ls[i].addr] == i)
  {
    var s := RunFrom(Unix, INITIAL, acts);
    UnixRunKeepsInv(INITIAL, acts);
    ApplyKeepsAgrees(Unix, s, Cleanup(id));
  }

  // ---------------------------------------------------------------- TCP over whole runs

  /** The map agrees with the open listeners in every state of the run. */
  predicate AlwaysAgrees(s: State, acts: seq<Action>)
    requires Possible(Tcp, s, acts)
    decreases |acts|
  {
    Agrees(s) && (acts == [] || AlwaysAgrees(Apply(Tcp, s, acts[0]), acts[1..]))
  }

  predicate CleanupsSafe(s: State, acts: seq<Action>)
    requires Possible(Tcp, s, acts)
    decreases |acts|
  {
    acts == []
    || ((acts[0].Cleanup? ==> DeletesNothingOpen(s, acts[0].id)) && CleanupsSafe(Apply(Tcp, s, acts[0]), acts[1..]))
  }

  lemma {:induction false} TcpAgreesFrom(s: State, acts: seq<Action>)
    requires Inv(s) && Possible(Tcp, s, acts)
    ensures AlwaysAgrees(s, acts) <==> CleanupsSafe(s, acts)
    decreases |acts|
  {
    if acts == [] {
    } else {
      var a, t := acts[0], Apply(Tcp, s, acts[0]);
      ApplyKeepsWellFormed(Tcp, s, a);
      ApplyKeepsExclusive(Tcp, s, a);
      if a.Cleanup? { WhenTcpCleanupIsSafe(s, a.id); } else { ApplyKeepsAgrees(Tcp, s, a); }
      if Agrees(t) { TcpAgreesFrom(t, acts[1..]); }
    }
  }

  /** The TCP map agrees with the open listeners all along a run exactly when each clean-up in it
      finds its address missing, its own or with a closed listener. */
  lemma TcpMapAgreesExactlyWhen(acts: seq<Action>)
    requires Possible(Tcp, INITIAL, acts)
    ensures AlwaysAgrees(INITIAL, acts) <==> CleanupsSafe(INITIAL, acts)
  {
    TcpAgreesFrom(INITIAL, acts);
  }

  // ---------------------------------------------------------------- TCP with ordered cleanups

  /** The old listener's cleanup has happened before its address is registered again. */
  predicate CleanedFirst(s: State, a: Action) {
    a.Register? && PcOf(s, a.c).HasListener? && PcOf(s, a.c).id < |s.ls| ==>
      var id := PcOf(s, a.c).id;
      forall i :: 0 <= i < |s.ls| && i != id && Registered(s.ls[i]) ==> s.ls[i].addr != s.ls[id].addr
  }

  predicate CleanedFirstRun(s: State, acts: seq<Action>)
    requires Possible(Tcp, s, acts)
    decreases |acts|
  {
    acts == [] || (CleanedFirst(s, acts[0]) && CleanedFirstRun(Apply(Tcp, s, acts[0]), acts[1..]))
  }

  /** At most one registered listener per address. */
  predicate OneRegistered(s: State) {
    forall i, j :: 0 <= i < j < |s.ls| && Registered(s.ls[i]) && Registered(s.ls[j]) ==> s.ls[i].addr != s.ls[j].addr
  }

  lemma ApplyKeepsOneRegistered(s: State, a: Action)
    requires WellFormed(s) && OneRegistered(s) && Enabled(Tcp, s, a) && CleanedFirst(s, a)
    ensures OneRegistered(Apply(Tcp, s, a))
  {
  }

  lemma {:induction false} TcpRunKeepsInv(s: State, acts: seq<Action>)
    requires Inv(s) && OneRegistered(s) && Possible(Tcp, s, acts) && CleanedFirstRun(s, acts)
    ensures Inv(RunFrom(Tcp, s, acts)) && OneRegistered(RunFrom(Tcp, s, acts))
    decreases |acts|
  {
    if acts == [] {
    } else {
      ApplyKeepsWellFormed(Tcp, s, acts[0]);
      ApplyKeepsExclusive(Tcp, s, acts[0]);
      ApplyKeepsAgrees(Tcp, s, acts[0]);
      ApplyKeepsOneRegistered(s, acts[0]);
      TcpRunKeepsInv(Apply(Tcp, s, acts[0]), acts[1..]);
    }
  }

  /** TCP agrees too, on runs in which the old cleanup precedes each new registration. */
  lemma TcpMapAgreesWhenCleanedFirst(acts: seq<Action>)
    requires Possible(Tcp, INITIAL, acts) && CleanedFirstRun(INITIAL, acts)
    ensures var s := RunFrom(Tcp, INITIAL, acts); Agrees(s) && Exclusive(s)
  {
    TcpRunKeepsInv(INITIAL, acts);
  }

  // ---------------------------------------------------------------- who closes a listener

  /** The steps that close listener `id`: a cancel that found it, its watcher (in TCP, one that
      found it), or the end of its own accept loop (in Unix). */
  predicate ClosesIt(v: Variant, s: State, a: Action, id: Id) {
    match a
    case CancelCloses(c) => PcOf(s, c) == Cancelling(id)
    case WatcherCloses(w) => if v.Unix? then w == id else w in s.watched && s.watched[w] == id
    case Finish(l) => v.Unix? && l == id
    case _ => false
  }

  predicate SomeStepCloses(v: Variant, s: State, acts: seq<Action>, id: Id)
    requires Possible(v, s, acts)
    decreases |acts|
  {
    acts != [] && (ClosesIt(v, s, acts[0], id) || SomeStepCloses(v, Apply(v, s, acts[0]), acts[1..], id))
  }

  lemma StepCloses(v: Variant, s: State, a: Action, id: Id)
    requires Enabled(v, s, a) && id < |s.ls|
    ensures id < |Apply(v, s, a).ls| && (Apply(v, s, a).ls[id].open <==> s.ls[id].open && !ClosesIt(v, s, a, id))
  {
  }

  lemma {:induction false} StaysClosed(v: Variant, s: State, acts: seq<Action>, id: Id)
    requires Possible(v, s, acts) && id < |s.ls| && !s.ls[id].open
    ensures var t := RunFrom(v, s, acts); id < |t.ls| && !t.ls[id].open
    decreases |acts|
  {
    if acts == [] {
    } else {
      StepCloses(v, s, acts[0], id);
      StaysClosed(v, Apply(v, s, acts[0]), acts[1..], id);
    }
  }

  /** From any state on, in any run of either kind, an open listener is closed exactly when one of
      those steps closes it. */
  lemma {:induction false} ClosedExactlyWhen(v: Variant, s: State, acts: seq<Action>, id: Id)
    requires Possible(v, s, acts) && id < |s.ls| && s.ls[id].open
    ensures var t := RunFrom(v, s, acts);
            id < |t.ls| && (!t.ls[id].open <==> SomeStepCloses(v, s, acts, id))
    decreases |acts|
  {
    if acts == [] {
    } else {
      StepCloses(v, s, acts[0], id);
      if ClosesIt(v, s, acts[0], id) {
        StaysClosed(v, Apply(v, s, acts[0]), acts[1..], id);
      } else {
        ClosedExactlyWhen(v, Apply(v, s, acts[0]), acts[1..], id);
      }
    }
  }

  lemma {:induction false} EndedFrom(v: Variant, s: State, acts: seq<Action>, c: Conn)
    requires Possible(v, s, acts)
    ensures c in RunFrom(v, s, acts).ended <==> c in s.ended || Ends(c) in acts
    decreases |acts|
  {
    if acts == [] {
    } else {
      EndedFrom(v, Apply(v, s, acts[0]), acts[1..], c);
      assert Ends(c) in acts <==> acts[0] == Ends(c) || Ends(c) in acts[1..];
    }
  }

  /** When a connection has ended, the watcher of each Unix listener that it has registered can
      close it, and does. */
  lemma UnixEndCloses(acts: seq<Action>, c: Conn, id: Id)
    requires Possible(Unix, INITIAL, acts) && Ends(c) in acts
    requires var s := RunFrom(Unix, INITIAL, acts);
             id < |s.ls| && s.ls[id].owner == c && !s.ls[id].phase.Bound?
    ensures var s := RunFrom(Unix, INITIAL, acts);
            Enabled(Unix, s, WatcherCloses(id)) && !Apply(Unix, s, WatcherCloses(id)).ls[id].open
  {
    EndedFrom(Unix, INITIAL, acts, c);
    StepCloses(Unix, RunFrom(Unix, INITIAL, acts), WatcherCloses(id), id);
  }

  /** The steps of the accept loop of `id` that have happened, told from its phase. */
  predicate LoopTold(s: State, acts: seq<Action>, id: Id)
    requires id < |s.ls|
  {
    var p := s.ls[id].phase;
    && (AcceptFails(id) in acts <==> p.Broken? || p.Cleaned? || p.Finished?)
    && (Cleanup(id) in acts <==> p.Cleaned? || p.Finished?)
    && (Finish(id) in acts <==> p.Finished?)
  }

  /** Nothing of the kind happens to a listener that is not there. */
  predicate LoopsTold(s: State, acts: seq<Action>) {
    && (forall id :: 0 <= id < |s.ls| ==> LoopTold(s, acts, id))
    && (forall i :: 0 <= i < |acts| && (acts[i].AcceptFails? || acts[i].Cleanup? || acts[i].Finish?) ==>
          acts[i].id < |s.ls|)
  }

  /** A TCP watcher that has looked, and a Unix watcher that may close, follows the end of its
      connection, or in Unix of its accept loop. */
  predicate WatchersWait(v: Variant, s: State, acts: seq<Action>) {
    && (forall id :: id in s.watched ==> id < |s.ls| && Ends(s.ls[id].owner) in acts)
    && (forall c :: c in s.ended ==> Ends(c) in acts)
  }

  lemma StepTellsLoop(v: Variant, s: State, acts: seq<Action>, a: Action, id: Id)
    requires PcsFormed(s) && Enabled(v, s, a) && id < |s.ls| && LoopTold(s, acts, id)
    ensures LoopTold(Apply(v, s, a), acts + [a], id)
  {
    var p, q := s.ls[id].phase, Apply(v, s, a).ls[id].phase;
    assert forall b :: b in acts + [a] <==> b in acts || b == a;
    if a == AcceptFails(id) || a == Cleanup(id) || a == Finish(id) {
    } else if a.Register? && PcOf(s, a.c).id == id {
      assert p.Bound? && q.Serving?;
    } else {
      assert p == q;
    }
  }

  lemma StepTellsLoops(v: Variant, s: State, acts: seq<Action>, a: Action)
    requires PcsFormed(s) && Enabled(v, s, a) && LoopsTold(s, acts)
    ensures LoopsTold(Apply(v, s, a), acts + [a])
  {
    var t := Apply(v, s, a);
    forall id | 0 <= id < |t.ls| ensures LoopTold(t, acts + [a], id) {
      if id < |s.ls| {
        StepTellsLoop(v, s, acts, a, id);
      } else {
        assert t.ls[id].phase.Bound?;
        assert forall b :: b in acts + [a] <==> b in acts || b == a;
      }
    }
  }

  lemma StepKeepsWatchersWaiting(v: Variant, s: State, acts: seq<Action>, a: Action)
    requires WatchersWait(v, s, acts) && Enabled(v, s, a)
    ensures WatchersWait(v, Apply(v, s, a), acts + [a])
  {
    ListenersStay(v, s, a);
    assert forall b :: b in acts + [a] <==> b in acts || b == a;
  }

  lemma {:induction false} ToldFrom(v: Variant, s: State, past: seq<Action>, acts: seq<Action>)
    requires WellFormed(s) && LoopsTold(s, past) && WatchersWait(v, s, past) && Possible(v, s, acts)
    ensures LoopsTold(RunFrom(v, s, acts), past + acts) && WatchersWait(v, RunFrom(v, s, acts), past + acts)
    decreases |acts|
  {
    if acts == [] {
      assert past + acts == past;
    } else {
      ApplyKeepsWellFormed(v, s, acts[0]);
      StepTellsLoops(v, s, past, acts[0]);
      StepKeepsWatchersWaiting(v, s, past, acts[0]);
      ToldFrom(v, Apply(v, s, acts[0]), past + [acts[0]], acts[1..]);
      assert past + [acts[0]] + acts[1..] == past + acts;
    }
  }

  /** In every run an accept loop breaks, cleans up and finishes in that order and as its phase
      says, and a watcher waits for the end of its connection or, in Unix, of its accept loop. */
  lemma LoopsAndWatchersInOrder(v: Variant, acts: seq<Action>, id: Id)
    requires Possible(v, INITIAL, acts) && id < |RunFrom(v, INITIAL, acts).ls|
    ensures var s := RunFrom(v, INITIAL, acts);
            && LoopTold(s, acts, id)
            && (v.Tcp? && Enabled(v, s, WatcherCloses(id)) ==> Ends(s.ls[id].owner) in acts)
            && (v.Unix? && Enabled(v, s, WatcherCloses(id)) ==> Ends(s.ls[id].owner) in acts || Finish(id) in acts)
  {
    ToldFrom(v, INITIAL, [], acts);
    assert [] + acts == acts;
  }

  // ---------------------------------------------------------------- when a request succeeds

  lemma FirstStep(v: Variant, s: State, a: Action, more: seq<Action>)
    ensures Possible(v, s, [a] + more) <==> Enabled(v, s, a) && Possible(v, Apply(v, s, a), more)
    ensures Possible(v, s, [a] + more) ==> RunFrom(v, s, [a] + more) == RunFrom(v, Apply(v, s, a), more)
  {
    assert ([a] + more)[1..] == more;
  }

  lemma ThreeSteps(v: Variant, s: State, a: Action, b: Action, c: Action)
    ensures Possible(v, s, [a, b, c]) <==>
              Enabled(v, s, a) && Enabled(v, Apply(v, s, a), b) && Enabled(v, Apply(v, Apply(v, s, a), b), c)
    ensures Possible(v, s, [a, b, c]) ==>
              RunFrom(v, s, [a, b, c]) == Apply(v, Apply(v, Apply(v, s, a), b), c)
  {
    assert [a, b, c] == [a] + [b, c] && [b, c] == [b] + [c] && [c] == [c] + [];
    FirstStep(v, s, a, [b, c]);
    if Enabled(v, s, a) {
      var t := Apply(v, s, a);
      FirstStep(v, t, b, [c]);
      if Enabled(v, t, b) { FirstStep(v, Apply(v, t, b), c, []); }
    }
  }

  /** In any state a forward of an idle connection, for an address or, in TCP, for any free port,
      can go through exactly when the address is not bound and, in Unix, the map does not name it;
      the new listener is then the map's entry. */
  lemma ForwardSucceedsExactlyWhen(v: Variant, s: State, c: Conn, addr: Addr, anyPort: bool)
    requires PcOf(s, c).Idle? && (anyPort ==> v.Tcp?)
    ensures var acts := [if anyPort then RequestEphemeral(c) else Request(c, addr), Listen(c, addr), Register(c)];
            && (Possible(v, s, acts) <==> AddrFree(s, addr) && (v.Unix? ==> addr !in s.forwards))
            && (Possible(v, s, acts) ==>
                  var t := RunFrom(v, s, acts);
                  && t.ls == s.ls + [Listener(addr, c, true, Serving)]
                  && t.forwards == s.forwards[addr := |s.ls|] && PcOf(t, c).Idle?)
  {
    ThreeSteps(v, s, if anyPort then RequestEphemeral(c) else Request(c, addr), Listen(c, addr), Register(c));
  }

  /** One whose net.Listen fails leaves no trace but the connection's own idle loop. */
  lemma FailedForwardLeavesNothing(v: Variant, s: State, c: Conn, addr: Addr)
    requires PcOf(s, c).Idle? && Possible(v, s, [Request(c, addr), ListenFails(c)])
    ensures var t := RunFrom(v, s, [Request(c, addr), ListenFails(c)]);
            t.ls == s.ls && t.forwards == s.forwards && PcOf(t, c).Idle?
  {
    assert [Request(c, addr), ListenFails(c)] == [Request(c, addr)] + [ListenFails(c)];
    assert [ListenFails(c)] == [ListenFails(c)] + [];
    FirstStep(v, s, Request(c, addr), [ListenFails(c)]);
    FirstStep(v, Apply(v, s, Request(c, addr)), ListenFails(c), []);
  }

  /** When a Unix accept loop has finished, its listener is closed. */
  predicate FinishedClosed(s: State) {
    forall i :: 0 <= i < |s.ls| && s.ls[i].phase.Finished? ==> !s.ls[i].open
  }

  lemma {:induction false} UnixFinishedIsClosed(s: State, acts: seq<Action>)
    requires FinishedClosed(s) && WellFormed(s) && Possible(Unix, s, acts)
    ensures FinishedClosed(RunFrom(Unix, s, acts))
    decreases |acts|
  {
    if acts == [] {
    } else {
      ApplyKeepsWellFormed(Unix, s, acts[0]);
      UnixFinishedIsClosed(Apply(Unix, s, acts[0]), acts[1..]);
    }
  }

  // ---------------------------------------------------------------- what TCP can still close

  lemma {:induction false} RunKeepsWellFormed(v: Variant, s: State, acts: seq<Action>)
    requires WellFormed(s) && Possible(v, s, acts)
    ensures WellFormed(RunFrom(v, s, acts))
    decreases |acts|
  {
    if acts == [] {
    } else {
      ApplyKeepsWellFormed(v, s, acts[0]);
      RunKeepsWellFormed(v, Apply(v, s, acts[0]), acts[1..]);
    }
  }

  /** An open listener that the map does not name and that no cancel and no watcher is about
      to close. */
  predicate Orphan(s: State, id: Id) {
    && id < |s.ls| && s.ls[id].open && !s.ls[id].phase.Bound?
    && Lookup(s.forwards, s.ls[id].addr) != Some(id)
    && (forall c :: c in s.pcs ==> s.pcs[c] != Cancelling(id))
    && (forall i :: i in s.watched ==> s.watched[i] != id)
  }

  lemma NobodyHoldsOrphan(s: State, a: Action, id: Id)
    requires WellFormed(s) && Orphan(s, id) && Enabled(Tcp, s, a) && !a.Register?
    ensures var t := Apply(Tcp, s, a);
            && Lookup(t.forwards, s.ls[id].addr) != Some(id)
            && (forall c :: c in t.pcs ==> t.pcs[c] != Cancelling(id))
            && (forall i :: i in t.watched ==> t.watched[i] != id)
  {
  }

  lemma NobodyClosesOrphan(s: State, a: Action, id: Id)
    requires WellFormed(s) && Orphan(s, id) && Enabled(Tcp, s, a)
    ensures Apply(Tcp, s, a).ls[id].open
  {
    match a
    case CancelCloses(c) => assert PcOf(s, c).id != id;
    case WatcherCloses(w) => assert s.watched[w] != id;
    case _ =>
  }

  lemma ApplyKeepsOrphan(s: State, a: Action, id: Id)
    requires WellFormed(s) && Orphan(s, id) && Enabled(Tcp, s, a)
    ensures Orphan(Apply(Tcp, s, a), id)
  {
    NobodyClosesOrphan(s, a, id);
    ListenersStay(Tcp, s, a);
    if a.Register? {
      assert PcOf(s, a.c).id != id;
    } else {
      NobodyHoldsOrphan(s, a, id);
    }
  }

  /** A TCP listener in that state stays open for ever: no cancel and no watcher can reach it. */
  lemma {:induction false} TcpOrphanStaysOpen(s: State, acts: seq<Action>, id: Id)
    requires WellFormed(s) && Orphan(s, id) && Possible(Tcp, s, acts)
    ensures Orphan(RunFrom(Tcp, s, acts), id)
    decreases |acts|
  {
    if acts == [] {
    } else {
      ApplyKeepsWellFormed(Tcp, s, acts[0]);
      ApplyKeepsOrphan(s, acts[0], id);
      TcpOrphanStaysOpen(Apply(Tcp, s, acts[0]), acts[1..], id);
    }
  }

  lemma {:induction false} Above(cs: set<Conn>) returns (n: Conn)
    ensures forall c :: c in cs ==> c < n
    decreases cs
  {
    if cs == {} {
      n := 0;
    } else {
      var c :| c in cs;
      var m := Above(cs - {c});
      n := if c < m then m else c + 1;
      forall d | d in cs ensures d < n { assert d == c || d in cs - {c}; }
    }
  }

  predicate Closes(s: State, id: Id, later: seq<Action>) {
    Possible(Tcp, s, later) && var t := RunFrom(Tcp, s, later); id < |t.ls| && !t.ls[id].open
  }

  lemma OneStep(s: State, a: Action)
    requires Enabled(Tcp, s, a)
    ensures Possible(Tcp, s, [a]) && RunFrom(Tcp, s, [a]) == Apply(Tcp, s, a)
  {
    assert [a][1..] == [];
  }

  /** A cancel from any idle connection closes a listener that the map names. */
  lemma CancelWouldClose(s: State, id: Id) returns (later: seq<Action>)
    requires WellFormed(s) && id < |s.ls| && Lookup(s.forwards, s.ls[id].addr) == Some(id)
    ensures Closes(s, id, later)
  {
    var c := Above(s.pcs.Keys);
    assert c !in s.pcs;
    var look := Cancel(c, s.ls[id].addr);
    var t := Apply(Tcp, s, look);
    assert PcOf(t, c) == Cancelling(id) && t.ls == s.ls;
    later := [look, CancelCloses(c)];
    OneStep(t, CancelCloses(c));
    assert later[1..] == [CancelCloses(c)];
  }

  lemma SomethingCloses(s: State, id: Id) returns (later: seq<Action>)
    requires WellFormed(s) && id < |s.ls| && s.ls[id].open && !s.ls[id].phase.Bound? && !Orphan(s, id)
    ensures Closes(s, id, later)
  {
    if Lookup(s.forwards, s.ls[id].addr) == Some(id) {
      later := CancelWouldClose(s, id);
    } else if c :| c in s.pcs && s.pcs[c] == Cancelling(id) {
      later := [CancelCloses(c)];
      OneStep(s, CancelCloses(c));
    } else {
      var i :| i in s.watched && s.watched[i] == id;
      later := [WatcherCloses(i)];
      OneStep(s, WatcherCloses(i));
    }
  }

  /** After any TCP run a registered listener that is open can still be closed in some
      continuation exactly when the map names it or a cancel or a watcher is about to close it. */
  lemma TcpClosableExactlyWhen(acts: seq<Action>, id: Id)
    requires Possible(Tcp, INITIAL, acts)
    requires var s := RunFrom(Tcp, INITIAL, acts);
             id < |s.ls| && s.ls[id].open && !s.ls[id].phase.Bound?
    ensures var s := RunFrom(Tcp, INITIAL, acts);
            (exists later :: Closes(s, id, later)) <==>
              || Lookup(s.forwards, s.ls[id].addr) == Some(id)
              || (exists c :: c in s.pcs && s.pcs[c] == Cancelling(id))
              || (exists i :: i in s.watched && s.watched[i] == id)
  {
    var s := RunFrom(Tcp, INITIAL, acts);
    RunKeepsWellFormed(Tcp, INITIAL, acts);
    if Orphan(s, id) {
      forall later ensures !Closes(s, id, later) {
        if Possible(Tcp, s, later) { TcpOrphanStaysOpen(s, later, id); }
      }
    } else {
      var later := SomethingCloses(s, id);
      assert Closes(s, id, later);
    }
  }

  // ---------------------------------------------------------------- what a TCP watcher closes

  /** The listener registered last at an address. */
  function LastAt(regs: seq<(Addr, Id)>, addr: Addr): Option<Id> {
    if regs == [] then None
    else if regs[|regs| - 1].0 == addr then Some(regs[|regs| - 1].1)
    else LastAt(regs[..|regs| - 1], addr)
  }

  /** A registration of `id` was followed by another one at its address. */
  predicate ReRegistered(regs: seq<(Addr, Id)>, addr: Addr, id: Id) {
    exists i, j :: 0 <= i < j < |regs| && regs[i] == (addr, id) && regs[j].0 == addr
  }

  /** Every listener past Bound was registered once, at its address. */
  predicate RegsFormed(s: State) {
    && (forall i :: 0 <= i < |s.regs| ==>
          s.regs[i].1 < |s.ls| && !s.ls[s.regs[i].1].phase.Bound? && s.ls[s.regs[i].1].addr == s.regs[i].0)
    && (forall i, j :: 0 <= i < j < |s.regs| ==> s.regs[i].1 != s.regs[j].1)
    && (forall id :: 0 <= id < |s.ls| && !s.ls[id].phase.Bound? ==> (s.ls[id].addr, id) in s.regs)
  }

  /** The map names the last listener registered at an address, if any. */
  predicate NamesLatest(forwards: map<Addr, Id>, regs: seq<(Addr, Id)>) {
    forall addr :: addr in forwards ==> LastAt(regs, addr) == Some(forwards[addr])
  }

  predicate MapIsLatest(s: State) {
    NamesLatest(s.forwards, s.regs)
  }

  /** The map under its mutex; `regs` are the registrations so far, in order. */
  class ForwardTable {
    var forwards: map<Addr, Id>
    ghost var regs: seq<(Addr, Id)>

    ghost predicate Valid()
      reads this
    {
      NamesLatest(forwards, regs)
    }

    constructor ()
      ensures Valid() && forwards == map[] && regs == []
    {
      forwards, regs := map[], [];
    }

    /** What is found is what was registered last at the address. */
    method Find(addr: Addr) returns (id: Option<Id>)
      requires Valid()
      ensures id == Lookup(forwards, addr) && (id.Some? ==> id == LastAt(regs, addr))
    {
      if addr in forwards { return Some(forwards[addr]); }
      return None;
    }

    method Register(addr: Addr, id: Id)
      requires Valid()
      modifies this
      ensures Valid() && regs == old(regs) + [(addr, id)] && forwards == old(forwards)[addr := id]
    {
      forwards := forwards[addr := id];
      regs := regs + [(addr, id)];
      assert regs[..|regs| - 1] == old(regs);
    }

    /** The clean-up of a Unix listener: it takes the address out exactly when no other listener
        has been registered there since. */
    method DeleteOwn(addr: Addr, id: Id)
      requires Valid()
      modifies this`forwards
      ensures Valid() && forwards == CleanOwn(old(forwards), addr, id)
      ensures forwards == if LastAt(regs, addr) == Some(id) then old(forwards) - {addr} else old(forwards)
    {
      var found := Find(addr);
      if found.Some? && found.value == id {
        forwards := forwards - {addr};
      }
    }

    /** That of a TCP listener takes it out in any case. */
    method Delete(addr: Addr)
      requires Valid()
      modifies this`forwards
      ensures Valid() && forwards == CleanAny(old(forwards), addr)
    {
      forwards := forwards - {addr};
    }
  }

  lemma RegisterKeepsRegs(v: Variant, s: State, c: Conn)
    requires PcsFormed(s) && RegsFormed(s) && Enabled(v, s, Register(c))
    ensures RegsFormed(Apply(v, s, Register(c)))
  {
    var t, id := Apply(v, s, Register(c)), PcOf(s, c).id;
    assert t.regs == s.regs + [(s.ls[id].addr, id)];
    assert forall k :: 0 <= k < |s.regs| ==> s.regs[k].1 != id;
    forall k | 0 <= k < |t.ls| && !t.ls[k].phase.Bound? ensures (t.ls[k].addr, k) in t.regs {
      if k == id {
        assert t.regs[|s.regs|] == (t.ls[k].addr, k);
      } else {
        assert (s.ls[k].addr, k) in s.regs;
      }
    }
  }

  lemma RegsCarryOver(s: State, t: State)
    requires RegsFormed(s) && t.regs == s.regs && |t.ls| >= |s.ls|
    requires forall i :: 0 <= i < |s.ls| ==>
               t.ls[i].addr == s.ls[i].addr && (t.ls[i].phase.Bound? <==> s.ls[i].phase.Bound?)
    requires forall i :: |s.ls| <= i < |t.ls| ==> t.ls[i].phase.Bound?
    ensures RegsFormed(t)
  {
    forall i | 0 <= i < |t.regs|
      ensures t.regs[i].1 < |t.ls| && !t.ls[t.regs[i].1].phase.Bound? && t.ls[t.regs[i].1].addr == t.regs[i].0
    {
      assert s.regs[i].1 < |s.ls|;
    }
  }

  lemma ApplyKeepsRegs(v: Variant, s: State, a: Action)
    requires PcsFormed(s) && RegsFormed(s) && Enabled(v, s, a)
    ensures RegsFormed(Apply(v, s, a))
  {
    if a.Register? {
      RegisterKeepsRegs(v, s, a.c);
    } else {
      ListenersStay(v, s, a);
      RegsCarryOver(s, Apply(v, s, a));
    }
  }

  lemma ApplyKeepsLatest(v: Variant, s: State, a: Action)
    requires MapIsLatest(s) && Enabled(v, s, a)
    ensures MapIsLatest(Apply(v, s, a))
  {
    var t := Apply(v, s, a);
    if a.Register? {
      assert t.regs[..|s.regs|] == s.regs;
    } else {
      assert t.regs == s.regs;
      assert forall addr :: addr in t.forwards ==> addr in s.forwards && t.forwards[addr] == s.forwards[addr];
    }
  }

  lemma {:induction false} RunKeepsRegs(v: Variant, s: State, acts: seq<Action>)
    requires WellFormed(s) && RegsFormed(s) && MapIsLatest(s) && Possible(v, s, acts)
    ensures RegsFormed(RunFrom(v, s, acts)) && MapIsLatest(RunFrom(v, s, acts)) && WellFormed(RunFrom(v, s, acts))
    decreases |acts|
  {
    if acts == [] {
    } else {
      ApplyKeepsWellFormed(v, s, acts[0]);
      ApplyKeepsRegs(v, s, acts[0]);
      ApplyKeepsLatest(v, s, acts[0]);
      RunKeepsRegs(v, Apply(v, s, acts[0]), acts[1..]);
    }
  }

  lemma {:induction false} LastMeans(regs: seq<(Addr, Id)>, addr: Addr, k: nat)
    requires k < |regs| && regs[k].0 == addr
    requires forall i, j :: 0 <= i < j < |regs| ==> regs[i].1 != regs[j].1
    ensures LastAt(regs, addr) == Some(regs[k].1) <==> !ReRegistered(regs, addr, regs[k].1)
    ensures LastAt(regs, addr).Some?
    decreases |regs|
  {
    var n := |regs| - 1;
    var init := regs[..n];
    if k < n {
      assert init[k] == regs[k];
      LastMeans(init, addr, k);
      if regs[n].0 == addr {
        assert ReRegistered(regs, addr, regs[k].1);
      } else {
        if ReRegistered(regs, addr, regs[k].1) {
          var i, j :| 0 <= i < j < |regs| && regs[i] == (addr, regs[k].1) && regs[j].0 == addr;
          assert init[i] == regs[i] && init[j] == regs[j];
        }
        if ReRegistered(init, addr, regs[k].1) {
          var i, j :| 0 <= i < j < |init| && init[i] == (addr, regs[k].1) && init[j].0 == addr;
          assert regs[i] == init[i] && regs[j] == init[j];
        }
      }
    }
  }

  lemma {:induction false} WatchedStays(s: State, acts: seq<Action>, id: Id)
    requires WellFormed(s) && Possible(Tcp, s, acts) && id in s.watched
    ensures var t := RunFrom(Tcp, s, acts);
            id in t.watched && t.watched[id] == s.watched[id] && WellFormed(t)
    decreases |acts|
  {
    if acts == [] {
    } else {
      ApplyKeepsWellFormed(Tcp, s, acts[0]);
      WatchedStays(Apply(Tcp, s, acts[0]), acts[1..], id);
    }
  }

  lemma LookedUpIsClosed(s: State, id: Id, between: seq<Action>)
    requires WellFormed(s) && Possible(Tcp, s, between) && id in s.watched
    ensures var u := RunFrom(Tcp, s, between);
            s.watched[id] < |u.ls| && Enabled(Tcp, u, WatcherCloses(id))
            && Apply(Tcp, u, WatcherCloses(id)) == Close(u, s.watched[id])
  {
    WatchedStays(s, between, id);
    var u := RunFrom(Tcp, s, between);
    assert id in u.watched && id < |u.ls| && !u.ls[id].phase.Bound?;
  }

  /** The entry that a look-up finds, told from the registrations. */
  lemma FoundIsLatest(s: State, id: Id)
    requires RegsFormed(s) && MapIsLatest(s) && Enabled(Tcp, s, WatcherLooks(id)) && s.ls[id].addr in s.forwards
    ensures LastAt(s.regs, s.ls[id].addr) == Some(s.forwards[s.ls[id].addr])
    ensures s.forwards[s.ls[id].addr] == id <==> !ReRegistered(s.regs, s.ls[id].addr, id)
  {
    assert (s.ls[id].addr, id) in s.regs;
    var k :| 0 <= k < |s.regs| && s.regs[k] == (s.ls[id].addr, id);
    LastMeans(s.regs, s.ls[id].addr, k);
  }

  /** A TCP watcher that has looked up an entry closes, whenever it does, the listener that was
      registered last at the address before its look-up. That is its own listener exactly when
      the address was not registered again before the look-up. */
  lemma WhatATcpWatcherCloses(before: seq<Action>, id: Id, between: seq<Action>)
    requires Possible(Tcp, INITIAL, before)
    requires var s := RunFrom(Tcp, INITIAL, before);
             && Enabled(Tcp, s, WatcherLooks(id)) && s.ls[id].addr in s.forwards
             && Possible(Tcp, Apply(Tcp, s, WatcherLooks(id)), between)
    ensures var s := RunFrom(Tcp, INITIAL, before);
            var u := RunFrom(Tcp, Apply(Tcp, s, WatcherLooks(id)), between);
            var w := LastAt(s.regs, s.ls[id].addr);
            && w.Some? && w.value < |u.ls|
            && Enabled(Tcp, u, WatcherCloses(id)) && Apply(Tcp, u, WatcherCloses(id)) == Close(u, w.value)
            && (w.value == id <==> !ReRegistered(s.regs, s.ls[id].addr, id))
  {
    var s := RunFrom(Tcp, INITIAL, before);
    RunKeepsRegs(Tcp, INITIAL, before);
    FoundIsLatest(s, id);
    ApplyKeepsWellFormed(Tcp, s, WatcherLooks(id));
    LookedUpIsClosed(Apply(Tcp, s, WatcherLooks(id)), id, between);
  }

  /** It closes a listener of another connection exactly when the last registration at the
      address before its look-up was another connection's. */
  lemma WhenATcpWatcherClosesAnothers(before: seq<Action>, id: Id)
    requires Possible(Tcp, INITIAL, before)
    requires var s := RunFrom(Tcp, INITIAL, before);
             Enabled(Tcp, s, WatcherLooks(id)) && s.ls[id].addr in s.forwards
    ensures var s := RunFrom(Tcp, INITIAL, before);
            var t := Apply(Tcp, s, WatcherLooks(id));
            && t.watched[id] < |s.ls|
            && (s.ls[t.watched[id]].owner != s.ls[id].owner <==>
                  exists w :: LastAt(s.regs, s.ls[id].addr) == Some(w) && w < |s.ls| && s.ls[w].owner != s.ls[id].owner)
            && (s.ls[t.watched[id]].owner != s.ls[id].owner ==> ReRegistered(s.regs, s.ls[id].addr, id))
  {
    var s := RunFrom(Tcp, INITIAL, before);
    RunKeepsRegs(Tcp, INITIAL, before);
    FoundIsLatest(s, id);
  }

  // ---------------------------------------------------------------- runs that show the difference

  lemma {:induction false} RunSnoc(v: Variant, s: State, acts: seq<Action>, a: Action)
    requires Possible(v, s, acts) && Enabled(v, RunFrom(v, s, acts), a)
    ensures Possible(v, s, acts + [a])
    ensures RunFrom(v, s, acts + [a]) == Apply(v, RunFrom(v, s, acts), a)
    decreases |acts|
  {
    if acts == [] {
      assert (acts + [a])[1..] == [];
    } else {
      assert (acts + [a])[1..] == acts[1..] + [a];
      RunSnoc(v, Apply(v, s, acts[0]), acts[1..], a);
    }
  }

  /** `acts` leads from the initial state to `s`. */
  predicate Reaches(acts: seq<Action>, s: State) {
    Possible(Tcp, INITIAL, acts) && RunFrom(Tcp, INITIAL, acts) == s
  }

  lemma Then(acts: seq<Action>, s: State, a: Action) returns (longer: seq<Action>, t: State)
    requires Reaches(acts, s) && Enabled(Tcp, s, a)
    ensures longer == acts + [a] && Reaches(longer, t) && t == Apply(Tcp, s, a)
  {
    RunSnoc(Tcp, INITIAL, acts, a);
    longer, t := acts + [a], Apply(Tcp, s, a);
  }

  /** A connection forwards `addr`, from the request to the registration. */
  lemma ThenForward(acts: seq<Action>, s: State, c: Conn, addr: Addr) returns (longer: seq<Action>, t: State)
    requires Reaches(acts, s) && PcOf(s, c).Idle? && AddrFree(s, addr)
    ensures Reaches(longer, t) && t.ls == s.ls + [Listener(addr, c, true, Serving)]
    ensures t.forwards == s.forwards[addr := |s.ls|] && t.pcs == s.pcs[c := Idle]
    ensures t.ended == s.ended && t.watched == s.watched
  {
    longer, t := Then(acts, s, Request(c, addr));
    longer, t := Then(longer, t, Listen(c, addr));
    longer, t := Then(longer, t, Register(c));
    assert t.pcs == s.pcs[c := Idle];
  }

  /** The owner cancels its forward and the accept loop sees the closed listener. */
  lemma ThenCancel(acts: seq<Action>, s: State, c: Conn, id: Id) returns (longer: seq<Action>, t: State)
    requires Reaches(acts, s) && PcOf(s, c).Idle? && id < |s.ls| && s.ls[id].phase.Serving?
    requires s.ls[id].addr in s.forwards && s.forwards[s.ls[id].addr] == id
    ensures Reaches(longer, t) && t.ls == s.ls[id := s.ls[id].(open := false, phase := Broken)]
    ensures t.forwards == s.forwards && t.pcs == s.pcs[c := Idle] && t.ended == s.ended && t.watched == s.watched
  {
    longer, t := Then(acts, s, Cancel(c, s.ls[id].addr));
    longer, t := Then(longer, t, CancelCloses(c));
    longer, t := Then(longer, t, AcceptFails(id));
    assert t.pcs == s.pcs[c := Idle];
  }

  /** The premise is needed: a TCP run in which the late cleanup of a cancelled listener
      deletes the entry of the listener that has replaced it. */
  lemma TcpLateCleanupRemovesNewer() returns (acts: seq<Action>, s: State)
    ensures Reaches(acts, s) && !Agrees(s)
    ensures |s.ls| == 2 && s.ls[1].open && s.ls[1].phase.Serving? && s.ls[1].addr !in s.forwards
  {
    acts, s := ThenForward([], INITIAL, 1, "a");
    acts, s := ThenCancel(acts, s, 1, 0);
    acts, s := ThenForward(acts, s, 2, "a");
    acts, s := Then(acts, s, Cleanup(0));
    assert s.ls[1] == Listener("a", 2, true, Serving);
  }

  /** One connection has forwarded and cancelled, with its cleanup done, and another has
      taken the address over. */
  lemma AddressTakenOver() returns (acts: seq<Action>, s: State)
    ensures Reaches(acts, s)
    ensures s.ls == [Listener("a", 1, false, Finished), Listener("a", 2, true, Serving)]
    ensures s.forwards == map["a" := 1] && s.ended == {} && s.watched == map[]
  {
    acts, s := ThenForward([], INITIAL, 1, "a");
    acts, s := ThenCancel(acts, s, 1, 0);
    acts, s := Then(acts, s, Cleanup(0));
    acts, s := Then(acts, s, Finish(0));
    assert s.ls == [Listener("a", 1, false, Finished)];
    acts, s := ThenForward(acts, s, 2, "a");
  }

  /** A TCP run, cleanups in order, in which one connection's end closes the listener that
      another connection has since opened at the same address. */
  lemma TcpWatcherClosesAnothersListener() returns (acts: seq<Action>, s: State, t: State)
    ensures Reaches(acts, s) && Enabled(Tcp, s, WatcherCloses(0)) && t == Apply(Tcp, s, WatcherCloses(0))
    ensures |s.ls| == 2 && s.ls[1].open && s.ls[1].owner == 2 && 2 !in s.ended && !t.ls[1].open
  {
    acts, s := AddressTakenOver();
    acts, s := Then(acts, s, Ends(1));
    acts, s := Then(acts, s, WatcherLooks(0));
    t := Apply(Tcp, s, WatcherCloses(0));
  }

  /** A TCP run in which one failed accept leaves a listener open that nothing can close. */
  lemma TcpAcceptErrorLeaks(later: seq<Action>) returns (acts: seq<Action>, s: State)
    ensures Reaches(acts, s) && WellFormed(s) && Orphan(s, 0)
    ensures Possible(Tcp, s, later) ==> Orphan(RunFrom(Tcp, s, later), 0)
  {
    acts, s := ThenForward([], INITIAL, 1, "a");
    acts, s := Then(acts, s, AcceptFails(0));
    acts, s := Then(acts, s, Cleanup(0));
    acts, s := Then(acts, s, Finish(0));
    if Possible(Tcp, s, later) { TcpOrphanStaysOpen(s, later, 0); }
  }
}
