/** Signal delivery of a session (session.go): the request loop, calls of Signals, and the
    background flush, all serialised by sigMu. */
module Signals {
  import opened Basics

  type Signal = string
  type Chan = nat

  const MAX_BUFFER: nat := 128

  /** Who holds sigMu. The loop holds it while it waits to hand over one signal; a flush
      holds it from Signals until the last buffered signal is out. */
  datatype Lock = Free | Sending(sig: Signal) | Flushing(next: nat)

  /** `arrived` are the signals received, `dropped` the positions in it of those discarded,
      `delivered` the signals handed over, each with the channel that got it. */
  datatype State = State(
    lock: Lock, ch: Option<Chan>, buf: seq<Signal>,
    arrived: seq<Signal>, dropped: set<nat>, delivered: seq<(Chan, Signal)>)

  const INITIAL := State(Free, None, [], [], {}, [])

  /** Arrive: the loop takes a signal request and the mutex. Register: Signals(c) takes the
      mutex. Deliver: the registered channel's receiver takes the signal on offer. */
  datatype Action = Arrive(sig: Signal) | Register(ch: Option<Chan>) | Deliver

  predicate Enabled(s: State, a: Action) {
    match a
    case Arrive(_) => s.lock.Free?
    case Register(_) => s.lock.Free?
    case Deliver => !s.lock.Free? && s.ch.Some? && (s.lock.Flushing? ==> s.lock.next < |s.buf|)
  }

  function Apply(s: State, a: Action): State
    requires Enabled(s, a)
  {
    match a
    case Arrive(sig) =>
      var t := s.(arrived := s.arrived + [sig]);
      if s.ch.Some? then t.(lock := Sending(sig))
      else if |s.buf| < MAX_BUFFER then t.(buf := s.buf + [sig])
      else t.(dropped := s.dropped + {|s.arrived|})
    case Register(c) =>
      s.(ch := c, lock := if s.buf == [] || c.None? then Free else Flushing(0))
    case Deliver =>
      match s.lock
      case Sending(sig) => s.(delivered := s.delivered + [(s.ch.value, sig)], lock := Free)
      case Flushing(k) =>
        var t := s.(delivered := s.delivered + [(s.ch.value, s.buf[k])]);
        if k + 1 < |s.buf| then t.(lock := Flushing(k + 1)) else t.(lock := Free, buf := [])
  }

  predicate Possible(s: State, acts: seq<Action>)
    decreases |acts|
  {
    acts == [] || (Enabled(s, acts[0]) && Possible(Apply(s, acts[0]), acts[1..]))
  }

  function RunFrom(s: State, acts: seq<Action>): State
    requires Possible(s, acts)
    decreases |acts|
  {
    if acts == [] then s else RunFrom(Apply(s, acts[0]), acts[1..])
  }

  // ---------------------------------------------------------------- the invariant

  /** The signals accepted but not yet handed over, oldest first. */
  function Waiting(s: State): seq<Signal> {
    match s.lock
    case Free => s.buf
    case Sending(sig) => [sig]
    case Flushing(k) => if k <= |s.buf| then s.buf[k..] else []
  }

  function Sent(ds: seq<(Chan, Signal)>): (r: seq<Signal>)
    ensures |r| == |ds| && forall i :: 0 <= i < |ds| ==> r[i] == ds[i].1
  {
    seq(|ds|, i requires 0 <= i < |ds| => ds[i].1)
  }

  /** The received signals without the dropped ones, in order. */
  function Kept(arrived: seq<Signal>, dropped: set<nat>): seq<Signal> {
    if arrived == [] then []
    else Kept(arrived[..|arrived| - 1], dropped)
         + (if |arrived| - 1 in dropped then [] else [arrived[|arrived| - 1]])
  }

  predicate Inv(s: State) {
    // a registered channel implies an empty buffer, whenever the mutex is free
    && (s.lock.Free? && s.ch.Some? ==> s.buf == [])
    && (s.lock.Sending? ==> s.ch.Some? && s.buf == [])
    && (s.lock.Flushing? ==> s.ch.Some? && s.lock.next < |s.buf|)
    && |s.buf| <= MAX_BUFFER
    && (forall i :: i in s.dropped ==> i < |s.arrived|)
    && Sent(s.delivered) + Waiting(s) == Kept(s.arrived, s.dropped)
  }

  lemma {:induction false} KeptIgnoresLater(arrived: seq<Signal>, dropped: set<nat>, i: nat)
    requires i >= |arrived|
    ensures Kept(arrived, dropped + {i}) == Kept(arrived, dropped)
    decreases |arrived|
  {
    if arrived == [] {
    } else {
      KeptIgnoresLater(arrived[..|arrived| - 1], dropped, i);
    }
  }

  lemma KeptGrows(arrived: seq<Signal>, dropped: set<nat>, sig: Signal)
    requires forall i :: i in dropped ==> i < |arrived|
    ensures Kept(arrived + [sig], dropped) == Kept(arrived, dropped) + [sig]
    ensures Kept(arrived + [sig], dropped + {|arrived|}) == Kept(arrived, dropped)
  {
    assert (arrived + [sig])[..|arrived|] == arrived;
    KeptIgnoresLater(arrived, dropped, |arrived|);
  }

  lemma SignalsGrow(ds: seq<(Chan, Signal)>, c: Chan, sig: Signal, rest: seq<Signal>)
    ensures Sent(ds + [(c, sig)]) + rest == Sent(ds) + ([sig] + rest)
  {
  }

  lemma ArriveKeepsInv(s: State, sig: Signal)
    requires Inv(s) && Enabled(s, Arrive(sig))
    ensures Inv(Apply(s, Arrive(sig)))
  {
    var t := Apply(s, Arrive(sig));
    KeptGrows(s.arrived, s.dropped, sig);
    if s.ch.Some? || |s.buf| < MAX_BUFFER {
      assert Waiting(t) == Waiting(s) + [sig];
    }
  }

  lemma DeliverKeepsInv(s: State)
    requires Inv(s) && Enabled(s, Deliver)
    ensures Inv(Apply(s, Deliver))
  {
    var t := Apply(s, Deliver);
    var sig := t.delivered[|s.delivered|].1;
    assert Waiting(s) == [sig] + Waiting(t);
    SignalsGrow(s.delivered, s.ch.value, sig, Waiting(t));
  }

  lemma ApplyKeepsInv(s: State, a: Action)
    requires Inv(s) && Enabled(s, a)
    ensures Inv(Apply(s, a))
  {
    match a
    case Arrive(sig) => ArriveKeepsInv(s, sig);
    case Register(_) => assert Waiting(Apply(s, a)) == Waiting(s);
    case Deliver => DeliverKeepsInv(s);
  }

  lemma {:induction false} RunKeepsInv(s: State, acts: seq<Action>)
    requires Inv(s) && Possible(s, acts)
    ensures Inv(RunFrom(s, acts))
    decreases |acts|
  {
    if acts == [] {
    } else {
      ApplyKeepsInv(s, acts[0]);
      RunKeepsInv(Apply(s, acts[0]), acts[1..]);
    }
  }

  // ---------------------------------------------------------------- over all runs

  /** Order and conservation: what was handed over, followed by what waits, is what was
      received, in order, without the dropped signals; and a free mutex with a registered
      channel means that nothing waits. */
  lemma OrderAndConservation(acts: seq<Action>)
    requires Possible(INITIAL, acts)
    ensures var s := RunFrom(INITIAL, acts);
            && Sent(s.delivered) + Waiting(s) == Kept(s.arrived, s.dropped)
            && (s.lock.Free? && s.ch.Some? ==> Waiting(s) == [] && Sent(s.delivered) == Kept(s.arrived, s.dropped))
            && |s.buf| <= MAX_BUFFER
  {
    RunKeepsInv(INITIAL, acts);
    var s := RunFrom(INITIAL, acts);
    if Waiting(s) == [] { assert Sent(s.delivered) + Waiting(s) == Sent(s.delivered); }
  }

  /** A signal is dropped exactly when it arrives with no channel registered and a full buffer;
      otherwise it joins the end of those that wait. */
  lemma WhenASignalIsDropped(acts: seq<Action>, sig: Signal)
    requires Possible(INITIAL, acts) && Enabled(RunFrom(INITIAL, acts), Arrive(sig))
    ensures var s := RunFrom(INITIAL, acts);
            var t := Apply(s, Arrive(sig));
            && (|s.arrived| in t.dropped <==> s.ch.None? && |Waiting(s)| == 128)
            && Waiting(t) == (if |s.arrived| in t.dropped then Waiting(s) else Waiting(s) + [sig])
  {
    RunKeepsInv(INITIAL, acts);
    ApplyKeepsInv(RunFrom(INITIAL, acts), Arrive(sig));
  }

  /** Signals handed to one channel, in order. */
  function HandedTo(c: Chan, sigs: seq<Signal>): seq<(Chan, Signal)> {
    if sigs == [] then [] else [(c, sigs[0])] + HandedTo(c, sigs[1..])
  }

  lemma FirstWaiting(s: State)
    requires Inv(s) && !s.lock.Free?
    ensures Enabled(s, Deliver) && Waiting(s) != [] && s.ch.Some?
    ensures var u := Apply(s, Deliver);
            && u.delivered == s.delivered + [(s.ch.value, Waiting(s)[0])]
            && Waiting(u) == Waiting(s)[1..] && (u.lock.Free? <==> |Waiting(s)| == 1)
            && u.ch == s.ch && u.arrived == s.arrived
  {
    match s.lock
    case Sending(sig) => assert [sig][1..] == [];
    case Flushing(k) => assert s.buf[k..][1..] == s.buf[k + 1..];
  }

  lemma DeliverStep(s: State)
    requires Inv(s) && !s.lock.Free?
    ensures Enabled(s, Deliver) && Waiting(s) != [] && s.ch.Some?
    ensures var u := Apply(s, Deliver);
            && Inv(u) && u.ch == s.ch && u.arrived == s.arrived
            && u.delivered == s.delivered + [(s.ch.value, Waiting(s)[0])]
            && Waiting(s)[1..] == Waiting(u) && Waiting(s) == [Waiting(s)[0]] + Waiting(u)
            && (u.lock.Free? <==> |Waiting(s)| == 1)
  {
    FirstWaiting(s);
    ApplyKeepsInv(s, Deliver);
    assert Waiting(s) == [Waiting(s)[0]] + Waiting(s)[1..];
  }

  /** While the mutex is held nothing but deliveries can happen; `n` waiting signals need
      exactly `n` of them, all to the registered channel, before it is free again. */
  lemma {:induction false} HeldUntilDelivered(s: State, acts: seq<Action>)
    requires Inv(s) && !s.lock.Free? && Possible(s, acts) && |acts| <= |Waiting(s)|
    ensures s.ch.Some?
    ensures var t := RunFrom(s, acts);
            && t.delivered == s.delivered + HandedTo(s.ch.value, Waiting(s)[..|acts|])
            && (t.lock.Free? <==> |acts| == |Waiting(s)|)
            && t.ch == s.ch && t.arrived == s.arrived
    decreases |acts|
  {
    DeliverStep(s);
    var first := Waiting(s)[..|acts|];
    if acts == [] {
      assert s.delivered + HandedTo(s.ch.value, first) == s.delivered;
    } else {
      assert acts[0] == Deliver;
      var u := Apply(s, Deliver);
      assert first[0] == Waiting(s)[0] && first[1..] == Waiting(u)[..|acts| - 1];
      if u.lock.Free? {
        assert acts[1..] == [] && HandedTo(s.ch.value, first[1..]) == [];
      } else {
        HeldUntilDelivered(u, acts[1..]);
        JoinHanded(s.delivered, s.ch.value, first);
      }
    }
  }

  lemma JoinHanded(before: seq<(Chan, Signal)>, c: Chan, sigs: seq<Signal>)
    requires sigs != []
    ensures before + [(c, sigs[0])] + HandedTo(c, sigs[1..]) == before + HandedTo(c, sigs)
  {
  }

  // ---------------------------------------------------------------- the session's fields

  class SignalBox {
    var lock: Lock
    var sigCh: Option<Chan>
    var sigBuf: seq<Signal>
    var arrived: seq<Signal>
    var dropped: set<nat>
    var delivered: seq<(Chan, Signal)>

    ghost function View(): State
      reads this
    {
      State(lock, sigCh, sigBuf, arrived, dropped, delivered)
    }

    /** Nothing received is lost, doubled or out of order but for the dropped. */
    ghost predicate Valid()
      reads this
    {
      Inv(View())
    }

    ghost function Pending(): seq<Signal>
      reads this
    {
      Waiting(View())
    }

    constructor ()
      ensures Valid() && View() == INITIAL
    {
      lock, sigCh, sigBuf := Free, None, [];
      arrived, dropped, delivered := [], {}, [];
    }

    /** The request loop's "signal" case up to the point where it waits for a receiver: the
        signal joins those that wait, unless no channel is registered and 128 wait already. */
    method Receive(sig: Signal)
      requires Valid() && lock.Free?
      modifies this
      ensures Valid() && View() == Apply(old(View()), Arrive(sig))
      ensures delivered == old(delivered) && sigCh == old(sigCh)
      ensures Pending() == if old(sigCh).None? && |old(Pending())| == MAX_BUFFER then old(Pending())
                           else old(Pending()) + [sig]
    {
      ApplyKeepsInv(View(), Arrive(sig));
      if sigCh.Some? {
        lock := Sending(sig);
      } else if |sigBuf| < MAX_BUFFER {
        sigBuf := sigBuf + [sig];
      } else {
        dropped := dropped + {|arrived|};
      }
      arrived := arrived + [sig];
    }

    /** Signals(c), up to the point where its background flush waits for a receiver: what waits
        goes on waiting, and the mutex stays held exactly when there is something to flush to `c`. */
    method Signals(c: Option<Chan>)
      requires Valid() && lock.Free?
      modifies this`sigCh, this`lock
      ensures Valid() && View() == Apply(old(View()), Register(c))
      ensures Pending() == old(Pending()) && sigCh == c
      ensures lock.Free? <==> c.None? || Pending() == []
    {
      ApplyKeepsInv(View(), Register(c));
      sigCh := c;
      if |sigBuf| == 0 || sigCh.None? { return; }
      lock := Flushing(0);
    }

    /** A receiver on the registered channel takes the signal on offer, the oldest that waits. */
    method HandOver() returns (sig: Signal)
      requires Valid() && !lock.Free?
      modifies this
      ensures Valid() && old(Enabled(View(), Deliver)) && View() == Apply(old(View()), Deliver)
      ensures old(Pending()) == [sig] + Pending()
      ensures old(sigCh).Some? && delivered == old(delivered) + [(old(sigCh).value, sig)]
    {
      DeliverStep(View());
      match lock
      case Sending(s) =>
        sig := s;
        delivered := delivered + [(sigCh.value, sig)];
        lock := Free;
      case Flushing(k) =>
        sig := sigBuf[k];
        delivered := delivered + [(sigCh.value, sig)];
        if k + 1 < |sigBuf| {
          lock := Flushing(k + 1);
        } else {
          sigBuf := [];
          lock := Free;
        }
    }
  }
}
