/** The open-channel set of a connection and the per-channel request forwarder (server.go). */
module Channels {
  import opened Basics

  type Chan = nat

  // ---------------------------------------------------------------- the set

  /** The list without its first entry equal to `c`. */
  function RemoveFirst(chans: seq<Chan>, c: Chan): seq<Chan> {
    if chans == [] then []
    else if chans[0] == c then chans[1..]
    else [chans[0]] + RemoveFirst(chans[1..], c)
  }

  lemma {:induction false} RemoveFirstAt(chans: seq<Chan>, i: nat, c: Chan)
    requires i < |chans| && chans[i] == c && c !in chans[..i]
    ensures RemoveFirst(chans, c) == chans[..i] + chans[i + 1..]
    decreases i
  {
    if i == 0 {
    } else {
      assert chans[..i] == [chans[0]] + chans[1..][..i - 1];
      RemoveFirstAt(chans[1..], i - 1, c);
    }
  }

  lemma {:induction false} RemoveFirstAbsent(chans: seq<Chan>, c: Chan)
    requires c !in chans
    ensures RemoveFirst(chans, c) == chans
    decreases |chans|
  {
    if chans == [] {
    } else {
      RemoveFirstAbsent(chans[1..], c);
    }
  }

  class OpenChannelSet {
    var chans: seq<Chan>

    constructor ()
      ensures chans == []
    {
      chans := [];
    }

    method Add(c: Chan)
      modifies this
      ensures chans == old(chans) + [c]
    {
      chans := chans + [c];
    }

    /** The channel added first among those in the set. */
    method Any() returns (c: Option<Chan>)
      ensures c == if chans == [] then None else Some(chans[0])
    {
      if |chans| == 0 { return None; }
      return Some(chans[0]);
    }

    method Remove(c: Chan)
      modifies this
      ensures chans == RemoveFirst(old(chans), c)
    {
      for i := 0 to |chans|
        invariant chans == old(chans) && c !in chans[..i]
      {
        if chans[i] == c {
          RemoveFirstAt(chans, i, c);
          chans := chans[..i] + chans[i + 1..];
          return;
        }
      }
      assert chans[..|chans|] == chans;
      RemoveFirstAbsent(chans, c);
    }
  }

  // ---------------------------------------------------------------- one forwarder on its own

  datatype Req = Req(id: nat, wantReply: bool)

  /** What the forwarder does, in order. Refused is a Reply(false). */
  datatype Event = Bump | Forwarded(r: Req) | Refused(r: Req) | Removed | WrappedClosed

  function Passed(rs: seq<Req>): seq<Event> {
    if rs == [] then [] else Passed(rs[..|rs| - 1]) + [Bump, Forwarded(rs[|rs| - 1])]
  }

  function Refusals(rs: seq<Req>): seq<Event> {
    if rs == [] then []
    else Refusals(rs[..|rs| - 1]) + (if rs[|rs| - 1].wantReply then [Refused(rs[|rs| - 1])] else [])
  }

  /** The rest of the stream after the context was cancelled, starting with the request held. */
  method Drain(reqs: seq<Req>) returns (log: seq<Event>)
    ensures log == Refusals(reqs)
  {
    log := [];
    for j := 0 to |reqs|
      invariant log == Refusals(reqs[..j])
    {
      assert reqs[..j + 1][..j] == reqs[..j];
      if reqs[j].wantReply { log := log + [Refused(reqs[j])]; }
    }
    assert reqs[..|reqs|] == reqs;
  }

  /** The suffix from the request at which the cancelled context was seen; empty if it never was. */
  function Aborted(rs: seq<Req>): seq<Event> {
    if rs == [] then [] else [Bump] + Refusals(rs)
  }

  /** Everything the forwarder does when its first `k` requests are passed on. */
  function Course(reqs: seq<Req>, k: nat): seq<Event>
    requires k <= |reqs|
  {
    Passed(reqs[..k]) + (Aborted(reqs[k..]) + [Removed, WrappedClosed])
  }

  /** The forwarder over a stream that ends, when the select picks the cancelled context for
      the first time at request `stop` (never, if `stop` is past the end). */
  method Forward(reqs: seq<Req>, stop: nat) returns (log: seq<Event>)
    ensures log == Course(reqs, if stop < |reqs| then stop else |reqs|)
  {
    log := [];
    var end: seq<Event> := [];
    var i := 0;
    while i < |reqs|
      invariant i <= |reqs| && i <= stop
      invariant log == Passed(reqs[..i])
    {
      if i == stop {
        end := Drain(reqs[i..]);
        end := [Bump] + end;
        break;
      }
      assert reqs[..i + 1][..i] == reqs[..i];
      log := log + [Bump, Forwarded(reqs[i])];
      i := i + 1;
    }
    assert end == Aborted(reqs[i..]);
    log := log + (end + [Removed, WrappedClosed]);
  }

  function ForwardedIn(log: seq<Event>): seq<Req> {
    if log == [] then []
    else ForwardedIn(log[..|log| - 1]) + (if log[|log| - 1].Forwarded? then [log[|log| - 1].r] else [])
  }

  function RefusedIn(log: seq<Event>): seq<Req> {
    if log == [] then []
    else RefusedIn(log[..|log| - 1]) + (if log[|log| - 1].Refused? then [log[|log| - 1].r] else [])
  }

  function WantReply(rs: seq<Req>): seq<Req> {
    if rs == [] then []
    else WantReply(rs[..|rs| - 1]) + (if rs[|rs| - 1].wantReply then [rs[|rs| - 1]] else [])
  }

  lemma {:induction false} InAppend(a: seq<Event>, b: seq<Event>)
    ensures ForwardedIn(a + b) == ForwardedIn(a) + ForwardedIn(b)
    ensures RefusedIn(a + b) == RefusedIn(a) + RefusedIn(b)
    decreases |b|
  {
    if b == [] {
      assert a + b == a;
    } else {
      assert (a + b)[..|a + b| - 1] == a + b[..|b| - 1];
      InAppend(a, b[..|b| - 1]);
    }
  }

  lemma InOne(e: Event)
    ensures ForwardedIn([e]) == (if e.Forwarded? then [e.r] else [])
    ensures RefusedIn([e]) == (if e.Refused? then [e.r] else [])
  {
    assert [e][..0] == [];
  }

  lemma InBumpAndForward(r: Req)
    ensures ForwardedIn([Bump, Forwarded(r)]) == [r] && RefusedIn([Bump, Forwarded(r)]) == []
  {
    assert [Bump, Forwarded(r)] == [Bump] + [Forwarded(r)];
    InOne(Bump);
    InOne(Forwarded(r));
    InAppend([Bump], [Forwarded(r)]);
  }

  lemma {:induction false} InPassed(rs: seq<Req>)
    ensures ForwardedIn(Passed(rs)) == rs && RefusedIn(Passed(rs)) == []
    decreases |rs|
  {
    if rs == [] {
    } else {
      var init, r := rs[..|rs| - 1], rs[|rs| - 1];
      InPassed(init);
      InBumpAndForward(r);
      InAppend(Passed(init), [Bump, Forwarded(r)]);
    }
  }

  lemma {:induction false} InRefusals(rs: seq<Req>)
    ensures ForwardedIn(Refusals(rs)) == [] && RefusedIn(Refusals(rs)) == WantReply(rs)
    decreases |rs|
  {
    if rs == [] {
    } else {
      var init, r := rs[..|rs| - 1], rs[|rs| - 1];
      InRefusals(init);
      if r.wantReply {
        InAppend(Refusals(init), [Refused(r)]);
        assert [Refused(r)][..0] == [];
      } else {
        assert Refusals(init) + [] == Refusals(init);
      }
    }
  }

  lemma InEnd()
    ensures ForwardedIn([Removed, WrappedClosed]) == [] && RefusedIn([Removed, WrappedClosed]) == []
  {
    assert [Removed, WrappedClosed] == [Removed] + [WrappedClosed];
    InOne(Removed);
    InOne(WrappedClosed);
    InAppend([Removed], [WrappedClosed]);
  }

  lemma InAborted(rs: seq<Req>)
    ensures ForwardedIn(Aborted(rs)) == [] && RefusedIn(Aborted(rs)) == WantReply(rs)
  {
    InOne(Bump);
    InRefusals(rs);
    InAppend([Bump], Refusals(rs));
  }

  lemma InTail(rs: seq<Req>)
    ensures var tail := Aborted(rs) + [Removed, WrappedClosed];
            ForwardedIn(tail) == [] && RefusedIn(tail) == WantReply(rs)
  {
    InAborted(rs);
    InEnd();
    InAppend(Aborted(rs), [Removed, WrappedClosed]);
  }

  /** The requests split into a forwarded prefix, in order, and a suffix in which exactly the
      requests that want a reply get one, negative, in order. */
  lemma ForwarderPartitions(reqs: seq<Req>, k: nat)
    requires k <= |reqs|
    ensures ForwardedIn(Course(reqs, k)) == reqs[..k]
    ensures RefusedIn(Course(reqs, k)) == WantReply(reqs[k..])
  {
    InPassed(reqs[..k]);
    InTail(reqs[k..]);
    InAppend(Passed(reqs[..k]), Aborted(reqs[k..]) + [Removed, WrappedClosed]);
  }

  // ---------------------------------------------------------------- all channels of a connection

  /** Where the goroutines of a channel stand: Accept has returned but onAccept has not run;
      ranging over the requests; with a request before and after the bump; with a request to
      refuse; draining; about to call onClose; about to close the wrapped stream; done. */
  datatype Phase =
    | Pending | Reading | Noting(r: Req) | Holding(r: Req) | Refusing(r: Req) | Draining | Removing | Closing | Closed

  /** `read` are the requests read, the first `passed` of them passed on; `log` is what the
      forwarder has done. */
  datatype Forwarder = Forwarder(phase: Phase, read: seq<Req>, passed: nat, log: seq<Event>)

  /** `chans` is the set. `accepted` and `added` are in the order of the Accept and of the add
      calls, `gone` those for which remove was called, `failed` those for which a probe did. */
  datatype State = State(
    chans: seq<Chan>, accepted: seq<Chan>, added: seq<Chan>, gone: set<Chan>, failed: set<Chan>,
    forwarders: map<Chan, Forwarder>, cancelled: bool)

  const INITIAL := State([], [], [], {}, {}, map[], false)

  /** Every accepted channel is a new object. Handlers run in goroutines of their own, so
      other steps come between Accept and Add. */
  datatype Action =
    | Accept(c: Chan)
    | Add(c: Chan)
    | Take(c: Chan, r: Req)
    | Note(c: Chan)
    | Pass(c: Chan)
    | SeeDone(c: Chan)                   // the select picks the cancelled context
    | Refuse(c: Chan)
    | StreamEnds(c: Chan)
    | Remove(c: Chan)
    | CloseWrapped(c: Chan)
    | ProbeRemoves(c: Chan)
    | CancelContext

  predicate Enabled(s: State, a: Action) {
    match a
    case Accept(c) => c !in s.forwarders
    case CancelContext => true
    case ProbeRemoves(c) => c in s.added
    case _ => a.c in s.forwarders && InPhase(s.forwarders[a.c].phase, a) && (a.SeeDone? ==> s.cancelled)
  }

  predicate InPhase(p: Phase, a: Action) {
    match a
    case Add(_) => p.Pending?
    case Take(_, _) => p.Reading? || p.Draining?
    case Note(_) => p.Noting?
    case Pass(_) => p.Holding?
    case SeeDone(_) => p.Holding?
    case Refuse(_) => p.Refusing?
    case StreamEnds(_) => p.Reading? || p.Draining?
    case Remove(_) => p.Removing?
    case CloseWrapped(_) => p.Closing?
    case _ => false
  }

  function StepForwarder(f: Forwarder, a: Action): Forwarder
    requires InPhase(f.phase, a)
  {
    match a
    case Add(_) => f.(phase := Reading)
    case Take(_, r) => f.(phase := if f.phase.Reading? then Noting(r) else Refusing(r), read := f.read + [r])
    case Note(_) => f.(phase := Holding(f.phase.r), log := f.log + [Bump])
    case Pass(_) => f.(phase := Reading, passed := f.passed + 1, log := f.log + [Forwarded(f.phase.r)])
    case SeeDone(_) => f.(phase := Refusing(f.phase.r))
    case Refuse(_) => f.(phase := Draining, log := f.log + (if f.phase.r.wantReply then [Refused(f.phase.r)] else []))
    case StreamEnds(_) => f.(phase := Removing)
    case Remove(_) => f.(phase := Closing, log := f.log + [Removed])
    case CloseWrapped(_) => f.(phase := Closed, log := f.log + [WrappedClosed])
  }

  function Moved(s: State, c: Chan, a: Action): State
    requires c in s.forwarders && InPhase(s.forwarders[c].phase, a)
  {
    s.(forwarders := s.forwarders[c := StepForwarder(s.forwarders[c], a)])
  }

  function Apply(s: State, a: Action): State
    requires Enabled(s, a)
  {
    match a
    case Accept(c) =>
      s.(accepted := s.accepted + [c], forwarders := s.forwarders[c := Forwarder(Pending, [], 0, [])])
    case CancelContext => s.(cancelled := true)
    case ProbeRemoves(c) => s.(chans := RemoveFirst(s.chans, c), gone := s.gone + {c}, failed := s.failed + {c})
    case Add(c) => Moved(s, c, a).(chans := s.chans + [c], added := s.added + [c])
    case Remove(c) => Moved(s, c, a).(chans := RemoveFirst(s.chans, c), gone := s.gone + {c})
    case _ => Moved(s, a.c, a)
  }

  // ---------------------------------------------------------------- the invariant

  function Live(added: seq<Chan>, gone: set<Chan>): seq<Chan> {
    if added == [] then []
    else (if added[0] in gone then [] else [added[0]]) + Live(added[1..], gone)
  }

  predicate Distinct(chans: seq<Chan>) {
    forall i, j :: 0 <= i < j < |chans| ==> chans[i] != chans[j]
  }

  /** The set holds, in the order of the adds and without duplicates, the channels not yet gone. */
  predicate SetAgrees(s: State) {
    s.chans == Live(s.added, s.gone) && Distinct(s.added) && Distinct(s.chans)
    && (forall c :: c in s.gone ==> c in s.added)
  }

  predicate PastRemoval(p: Phase) {
    p.Closing? || p.Closed?
  }

  /** A channel is gone when its forwarder is past the removal or a probe has removed it. */
  ghost predicate PhasesAgree(s: State) {
    && Distinct(s.accepted)
    && (forall c :: c in s.accepted <==> c in s.forwarders)
    && (forall c :: c in s.added <==> c in s.forwarders && !s.forwarders[c].phase.Pending?)
    && (forall c :: c in s.gone <==> c in s.failed || (c in s.forwarders && PastRemoval(s.forwarders[c].phase)))
  }

  /** What the forwarder has done so far is what a course does up to its phase. */
  predicate OnCourse(f: Forwarder) {
    && f.passed <= |f.read|
    && var before, rest := Passed(f.read[..f.passed]), f.read[f.passed..];
       match f.phase
       case Pending => f.read == [] && f.log == before
       case Reading => rest == [] && f.log == before
       case Noting(r) => rest == [r] && f.log == before
       case Holding(r) => rest == [r] && f.log == before + [Bump]
       case Refusing(r) =>
         rest != [] && rest[|rest| - 1] == r && f.log == before + ([Bump] + Refusals(rest[..|rest| - 1]))
       case Draining => rest != [] && f.log == before + Aborted(rest)
       case Removing => f.log == before + Aborted(rest)
       case Closing => f.log == before + (Aborted(rest) + [Removed])
       case Closed => f.log == Course(f.read, f.passed)
  }

  predicate LogsAgree(s: State) {
    forall c :: c in s.forwarders ==> OnCourse(s.forwarders[c])
  }

  ghost predicate Inv(s: State) {
    SetAgrees(s) && PhasesAgree(s) && LogsAgree(s)
  }

  lemma {:induction false} LiveMembers(added: seq<Chan>, gone: set<Chan>)
    ensures forall c :: c in Live(added, gone) <==> c in added && c !in gone
    ensures Distinct(added) ==> Distinct(Live(added, gone))
    decreases |added|
  {
    if added == [] {
    } else {
      LiveMembers(added[1..], gone);
      assert added == [added[0]] + added[1..];
      if Distinct(added) { assert added[0] !in added[1..]; }
    }
  }

  lemma {:induction false} LiveAppend(added: seq<Chan>, gone: set<Chan>, c: Chan)
    requires c !in gone
    ensures Live(added + [c], gone) == Live(added, gone) + [c]
    decreases |added|
  {
    if added == [] {
      assert (added + [c])[1..] == [];
    } else {
      assert (added + [c])[1..] == added[1..] + [c];
      LiveAppend(added[1..], gone, c);
    }
  }

  lemma {:induction false} LiveWithout(added: seq<Chan>, gone: set<Chan>, c: Chan)
    requires Distinct(added)
    ensures Live(added, gone + {c}) == RemoveFirst(Live(added, gone), c)
    decreases |added|
  {
    if added == [] {
    } else {
      var more := Live(added[1..], gone);
      LiveWithout(added[1..], gone, c);
      LiveMembers(added[1..], gone);
      if added[0] in gone {
        assert Live(added, gone) == more;
      } else {
        assert Live(added, gone)[1..] == more;
        if added[0] == c {
          assert c !in added[1..];
          RemoveFirstAbsent(more, c);
          assert Live(added, gone + {c}) == RemoveFirst(more, c);
        }
      }
    }
  }

  lemma AddKeepsSet(s: State, c: Chan)
    requires SetAgrees(s) && PhasesAgree(s) && Enabled(s, Add(c))
    ensures SetAgrees(Apply(s, Add(c)))
  {
    LiveAppend(s.added, s.gone, c);
    LiveMembers(s.added + [c], s.gone);
  }

  /** Either way of calling remove. */
  lemma RemoveKeepsSet(s: State, t: State, c: Chan)
    requires SetAgrees(s) && c in s.added
    requires t.chans == RemoveFirst(s.chans, c) && t.added == s.added && t.gone == s.gone + {c}
    ensures SetAgrees(t)
  {
    LiveWithout(s.added, s.gone, c);
    LiveMembers(s.added, s.gone + {c});
  }

  lemma ApplyKeepsSet(s: State, a: Action)
    requires SetAgrees(s) && PhasesAgree(s) && Enabled(s, a)
    ensures SetAgrees(Apply(s, a))
  {
    var t := Apply(s, a);
    match a
    case Add(c) => AddKeepsSet(s, c);
    case Remove(c) => RemoveKeepsSet(s, t, c);
    case ProbeRemoves(c) => RemoveKeepsSet(s, t, c);
    case _ => assert t.chans == s.chans && t.added == s.added && t.gone == s.gone;
  }

  lemma AcceptKeepsPhases(s: State, c: Chan)
    requires PhasesAgree(s) && Enabled(s, Accept(c))
    ensures PhasesAgree(Apply(s, Accept(c)))
  {
  }

  lemma MoveKeepsPhases(s: State, a: Action)
    requires PhasesAgree(s) && Enabled(s, a) && OwnStep(a)
    ensures PhasesAgree(Apply(s, a))
  {
    var t, f := Apply(s, a), s.forwarders[a.c];
    var g := StepForwarder(f, a);
    assert t.forwarders == s.forwarders[a.c := g] && t.failed == s.failed && t.accepted == s.accepted;
    assert t.added == if f.phase.Pending? then s.added + [a.c] else s.added;
    assert t.gone == if f.phase.Removing? then s.gone + {a.c} else s.gone;
    assert !g.phase.Pending? && (PastRemoval(g.phase) <==> f.phase.Removing? || PastRemoval(f.phase));
  }

  lemma ApplyKeepsPhases(s: State, a: Action)
    requires PhasesAgree(s) && Enabled(s, a)
    ensures PhasesAgree(Apply(s, a))
  {
    match a
    case Accept(c) => AcceptKeepsPhases(s, c);
    case CancelContext =>
    case ProbeRemoves(_) =>
    case _ => MoveKeepsPhases(s, a);
  }

  lemma PassKeepsCourse(f: Forwarder, c: Chan)
    requires OnCourse(f) && f.phase.Holding?
    ensures OnCourse(StepForwarder(f, Pass(c)))
  {
    var k, r := f.passed, f.phase.r;
    assert f.read == f.read[..k] + f.read[k..];
    assert f.read[..k + 1][..k] == f.read[..k] && f.read[k] == r;
    assert Passed(f.read[..k]) + [Bump] + [Forwarded(r)] == Passed(f.read[..k]) + [Bump, Forwarded(r)];
  }

  lemma SeeDoneKeepsCourse(f: Forwarder, c: Chan)
    requires OnCourse(f) && f.phase.Holding?
    ensures OnCourse(StepForwarder(f, SeeDone(c)))
  {
    var rest := f.read[f.passed..];
    assert rest[..|rest| - 1] == [] && Refusals([]) == [] && [Bump] + [] == [Bump];
  }

  lemma RefusalsEnd(rest: seq<Req>)
    requires rest != []
    ensures var r := rest[|rest| - 1];
            [Bump] + Refusals(rest[..|rest| - 1]) + (if r.wantReply then [Refused(r)] else []) == Aborted(rest)
  {
    var r := rest[|rest| - 1];
    assert Refusals(rest) == Refusals(rest[..|rest| - 1]) + (if r.wantReply then [Refused(r)] else []);
  }

  lemma JoinLogs(before: seq<Event>, middle: seq<Event>, end: seq<Event>)
    ensures before + middle + end == before + (middle + end)
  {
  }

  lemma RefuseKeepsCourse(f: Forwarder, c: Chan)
    requires OnCourse(f) && f.phase.Refusing?
    ensures OnCourse(StepForwarder(f, Refuse(c)))
  {
    var rest := f.read[f.passed..];
    RefusalsEnd(rest);
    JoinLogs(Passed(f.read[..f.passed]), [Bump] + Refusals(rest[..|rest| - 1]),
             if f.phase.r.wantReply then [Refused(f.phase.r)] else []);
  }

  lemma TakeKeepsCourse(f: Forwarder, c: Chan, r: Req)
    requires OnCourse(f) && (f.phase.Reading? || f.phase.Draining?)
    ensures OnCourse(StepForwarder(f, Take(c, r)))
  {
    var rest := f.read[f.passed..];
    assert (f.read + [r])[f.passed..] == rest + [r] && (f.read + [r])[..f.passed] == f.read[..f.passed];
    assert (rest + [r])[..|rest|] == rest;
  }

  lemma EndKeepsCourse(f: Forwarder, a: Action)
    requires OnCourse(f) && InPhase(f.phase, a) && (a.StreamEnds? || a.Remove? || a.CloseWrapped?)
    ensures OnCourse(StepForwarder(f, a))
  {
    var before, rest := Passed(f.read[..f.passed]), f.read[f.passed..];
    match a
    case StreamEnds(_) => if f.phase.Reading? { assert before + [] == before; }
    case Remove(_) => assert before + Aborted(rest) + [Removed] == before + (Aborted(rest) + [Removed]);
    case CloseWrapped(_) =>
      assert Aborted(rest) + [Removed] + [WrappedClosed] == Aborted(rest) + [Removed, WrappedClosed];
  }

  lemma StepKeepsCourse(f: Forwarder, a: Action)
    requires OnCourse(f) && InPhase(f.phase, a)
    ensures OnCourse(StepForwarder(f, a))
  {
    match a
    case Take(c, r) => TakeKeepsCourse(f, c, r);
    case Pass(c) => PassKeepsCourse(f, c);
    case SeeDone(c) => SeeDoneKeepsCourse(f, c);
    case Refuse(c) => RefuseKeepsCourse(f, c);
    case StreamEnds(_) | Remove(_) | CloseWrapped(_) => EndKeepsCourse(f, a);
    case _ =>
  }

  /** The steps of one channel's own goroutines. */
  predicate OwnStep(a: Action) {
    !a.Accept? && !a.CancelContext? && !a.ProbeRemoves?
  }

  lemma ForwarderAfter(s: State, a: Action, c: Chan)
    requires Enabled(s, a) && c in Apply(s, a).forwarders
    ensures var g := Apply(s, a).forwarders[c];
            || (c in s.forwarders && g == s.forwarders[c])
            || (c in s.forwarders && OwnStep(a) && a.c == c && g == StepForwarder(s.forwarders[c], a))
            || g == Forwarder(Pending, [], 0, [])
  {
  }

  lemma OneLogAgrees(s: State, a: Action, c: Chan)
    requires Enabled(s, a) && c in Apply(s, a).forwarders && (c in s.forwarders ==> OnCourse(s.forwarders[c]))
    ensures OnCourse(Apply(s, a).forwarders[c])
  {
    var g := Apply(s, a).forwarders[c];
    ForwarderAfter(s, a, c);
    if c in s.forwarders && g == s.forwarders[c] {
    } else if OwnStep(a) && a.c == c && c in s.forwarders {
      StepKeepsCourse(s.forwarders[c], a);
    }
  }

  lemma ApplyKeepsLogs(s: State, a: Action)
    requires LogsAgree(s) && Enabled(s, a)
    ensures LogsAgree(Apply(s, a))
  {
    forall c | c in Apply(s, a).forwarders ensures OnCourse(Apply(s, a).forwarders[c]) {
      OneLogAgrees(s, a, c);
    }
  }

  lemma ApplyKeepsInv(s: State, a: Action)
    requires Inv(s) && Enabled(s, a)
    ensures Inv(Apply(s, a))
  {
    ApplyKeepsSet(s, a);
    ApplyKeepsPhases(s, a);
    ApplyKeepsLogs(s, a);
  }

  predicate Possible(s: State, acts: seq<Action>)
    decreases |acts|
  {
    acts == [] || (Enabled(s, acts[0]) && Possible(Apply(s, acts[0]), acts[1..]))
  }

  function RunFrom(s: State, acts: seq<Action>): State
    requires Possible(s, acts)
    decreases |acts|
  {
    if acts == [] then s else RunFrom(Apply(s, acts[0]), acts[1..])
  }

  lemma {:induction false} RunKeepsInv(s: State, acts: seq<Action>)
    requires Inv(s) && Possible(s, acts)
    ensures Inv(RunFrom(s, acts))
    decreases |acts|
  {
    if acts == [] {
    } else {
      ApplyKeepsInv(s, acts[0]);
      RunKeepsInv(Apply(s, acts[0]), acts[1..]);
    }
  }

  // ---------------------------------------------------------------- over all runs

  /** Over every interleaving of any number of channels the set holds, without duplicates and
      in the order of the adds, exactly the channels that were added, whose forwarder is not
      past its removal, and that no probe has removed. */
  lemma SetAgreesWithLiveChannels(acts: seq<Action>)
    requires Possible(INITIAL, acts)
    ensures var t := RunFrom(INITIAL, acts);
            && t.chans == Live(t.added, t.gone) && Distinct(t.chans)
            && forall c :: c in t.chans <==>
                 c in t.forwarders && !t.forwarders[c].phase.Pending? && !PastRemoval(t.forwarders[c].phase)
                 && c !in t.failed
  {
    RunKeepsInv(INITIAL, acts);
    var t := RunFrom(INITIAL, acts);
    LiveMembers(t.added, t.gone);
  }

  lemma {:induction false} NoEndYet(rs: seq<Req>)
    ensures Removed !in Passed(rs) && WrappedClosed !in Passed(rs)
    ensures Removed !in Refusals(rs) && WrappedClosed !in Refusals(rs)
    decreases |rs|
  {
    if rs == [] {
    } else {
      NoEndYet(rs[..|rs| - 1]);
    }
  }

  lemma ClosedOnlyAtTheEnd(f: Forwarder)
    requires OnCourse(f)
    ensures WrappedClosed in f.log ==> f.phase.Closed?
  {
    var rest := f.read[f.passed..];
    NoEndYet(f.read[..f.passed]);
    NoEndYet(rest);
    if f.phase.Refusing? { NoEndYet(rest[..|rest| - 1]); }
  }

  /** When a wrapped stream has been closed, the channel has left the set. */
  lemma RemovalPrecedesClose(acts: seq<Action>, c: Chan)
    requires Possible(INITIAL, acts)
    ensures var t := RunFrom(INITIAL, acts);
            c in t.forwarders && WrappedClosed in t.forwarders[c].log ==>
              c !in t.chans && t.forwarders[c].phase.Closed?
  {
    RunKeepsInv(INITIAL, acts);
    var t := RunFrom(INITIAL, acts);
    LiveMembers(t.added, t.gone);
    if c in t.forwarders {
      NoEndYet(t.forwarders[c].read[..t.forwarders[c].passed]);
      NoEndYet(t.forwarders[c].read[t.forwarders[c].passed..]);
      ClosedOnlyAtTheEnd(t.forwarders[c]);
    }
  }

  /** In every run each forwarder that has ended its stream has passed on a prefix of the
      requests it read, in order, and has refused exactly those of the rest that want a reply. */
  lemma EveryForwarderPartitions(acts: seq<Action>, c: Chan)
    requires Possible(INITIAL, acts)
    ensures var t := RunFrom(INITIAL, acts);
            c in t.forwarders && t.forwarders[c].phase.Closed? ==>
              var f := t.forwarders[c];
              && f.passed <= |f.read| && f.log == Course(f.read, f.passed)
              && ForwardedIn(f.log) == f.read[..f.passed] && RefusedIn(f.log) == WantReply(f.read[f.passed..])
  {
    RunKeepsInv(INITIAL, acts);
    var t := RunFrom(INITIAL, acts);
    if c in t.forwarders && t.forwarders[c].phase.Closed? {
      assert OnCourse(t.forwarders[c]);
      ForwarderPartitions(t.forwarders[c].read, t.forwarders[c].passed);
    }
  }

  lemma {:induction false} CancelledFrom(s: State, acts: seq<Action>)
    requires Possible(s, acts)
    ensures RunFrom(s, acts).cancelled <==> s.cancelled || CancelContext in acts
    decreases |acts|
  {
    if acts == [] {
    } else {
      CancelledFrom(Apply(s, acts[0]), acts[1..]);
      assert CancelContext in acts <==> acts[0] == CancelContext || CancelContext in acts[1..];
    }
  }

  /** The forwarder has kept a request back. */
  predicate Aborting(f: Forwarder) {
    f.phase.Refusing? || f.phase.Draining? || (f.passed < |f.read| && !f.phase.Noting? && !f.phase.Holding?)
  }

  /** That happens in a cancelled context only. */
  predicate AbortsExcused(s: State) {
    forall c :: c in s.forwarders && Aborting(s.forwarders[c]) ==> s.cancelled
  }

  lemma StepStaysExcused(s: State, a: Action)
    requires LogsAgree(s) && AbortsExcused(s) && Enabled(s, a)
    ensures AbortsExcused(Apply(s, a))
  {
    forall c | c in Apply(s, a).forwarders && Aborting(Apply(s, a).forwarders[c]) ensures Apply(s, a).cancelled {
      ForwarderAfter(s, a, c);
      assert c in s.forwarders && OnCourse(s.forwarders[c]);
    }
  }

  lemma {:induction false} RunStaysExcused(s: State, acts: seq<Action>)
    requires Inv(s) && AbortsExcused(s) && Possible(s, acts)
    ensures AbortsExcused(RunFrom(s, acts))
    decreases |acts|
  {
    if acts == [] {
    } else {
      ApplyKeepsInv(s, acts[0]);
      StepStaysExcused(s, acts[0]);
      RunStaysExcused(Apply(s, acts[0]), acts[1..]);
    }
  }

  /** In a run without a cancelled context every finished forwarder has passed on all it read. */
  lemma NothingIsRefusedUncancelled(acts: seq<Action>, c: Chan)
    requires Possible(INITIAL, acts) && CancelContext !in acts
    ensures var t := RunFrom(INITIAL, acts);
            c in t.forwarders && t.forwarders[c].phase.Closed? ==>
              ForwardedIn(t.forwarders[c].log) == t.forwarders[c].read && RefusedIn(t.forwarders[c].log) == []
  {
    CancelledFrom(INITIAL, acts);
    RunStaysExcused(INITIAL, acts);
    RunKeepsInv(INITIAL, acts);
    EveryForwarderPartitions(acts, c);
    var t := RunFrom(INITIAL, acts);
    if c in t.forwarders && t.forwarders[c].phase.Closed? {
      var f := t.forwarders[c];
      assert OnCourse(f);
      assert f.passed == |f.read| && f.read[..|f.read|] == f.read && f.read[|f.read|..] == [];
    }
  }

  // ---------------------------------------------------------------- acceptance order

  /** `x` was accepted before `y`. */
  predicate Before(accepted: seq<Chan>, x: Chan, y: Chan) {
    exists i, j :: 0 <= i < j < |accepted| && accepted[i] == x && accepted[j] == y
  }

  predicate InOrder(accepted: seq<Chan>, chans: seq<Chan>) {
    forall i, j :: 0 <= i < j < |chans| ==> Before(accepted, chans[i], chans[j])
  }

  /** A channel is added while the set holds one that was not accepted before it. */
  predicate Overtakes(s: State, a: Action) {
    a.Add? && exists x :: x in s.chans && !Before(s.accepted, x, a.c)
  }

  predicate NoneOvertakes(s: State, acts: seq<Action>)
    requires Possible(s, acts)
    decreases |acts|
  {
    acts == [] || (!Overtakes(s, acts[0]) && NoneOvertakes(Apply(s, acts[0]), acts[1..]))
  }

  /** The set is in acceptance order in every state of the run. */
  predicate AlwaysInOrder(s: State, acts: seq<Action>)
    requires Possible(s, acts)
    decreases |acts|
  {
    InOrder(s.accepted, s.chans) && (acts == [] || AlwaysInOrder(Apply(s, acts[0]), acts[1..]))
  }

  lemma BeforeStays(accepted: seq<Chan>, c: Chan, x: Chan, y: Chan)
    requires Distinct(accepted + [c]) && y in accepted
    ensures Before(accepted + [c], x, y) <==> Before(accepted, x, y)
  {
    if Before(accepted, x, y) {
      var i, j :| 0 <= i < j < |accepted| && accepted[i] == x && accepted[j] == y;
      assert (accepted + [c])[i] == x && (accepted + [c])[j] == y;
    }
    if Before(accepted + [c], x, y) {
      var i, j :| 0 <= i < j < |accepted + [c]| && (accepted + [c])[i] == x && (accepted + [c])[j] == y;
      var k :| 0 <= k < |accepted| && accepted[k] == y;
      assert (accepted + [c])[k] == y;
      assert j == k && accepted[i] == x;
    }
  }

  lemma AcceptKeepsOrder(s: State, c: Chan)
    requires Inv(s) && Enabled(s, Accept(c))
    ensures InOrder(s.accepted + [c], s.chans) <==> InOrder(s.accepted, s.chans)
  {
    assert c !in s.accepted;
    LiveMembers(s.added, s.gone);
    forall x, y | x in s.chans && y in s.chans
      ensures Before(s.accepted + [c], x, y) <==> Before(s.accepted, x, y)
    {
      assert y in s.added && y in s.accepted;
      BeforeStays(s.accepted, c, x, y);
    }
  }

  lemma AddKeepsOrder(s: State, c: Chan)
    requires InOrder(s.accepted, s.chans)
    ensures InOrder(s.accepted, s.chans + [c]) <==> !Overtakes(s, Add(c))
  {
    var longer := s.chans + [c];
    if InOrder(s.accepted, longer) {
      forall x | x in s.chans ensures Before(s.accepted, x, c) {
        var i :| 0 <= i < |s.chans| && s.chans[i] == x;
        assert Before(s.accepted, longer[i], longer[|s.chans|]);
      }
    }
  }

  lemma {:induction false} RemoveFirstMembers(chans: seq<Chan>, c: Chan)
    ensures forall x :: x in RemoveFirst(chans, c) ==> x in chans
    decreases |chans|
  {
    if chans == [] {
    } else {
      RemoveFirstMembers(chans[1..], c);
    }
  }

  lemma {:induction false} RemoveKeepsOrder(accepted: seq<Chan>, chans: seq<Chan>, c: Chan)
    requires InOrder(accepted, chans)
    ensures InOrder(accepted, RemoveFirst(chans, c))
    decreases |chans|
  {
    if chans == [] || chans[0] == c {
    } else {
      var fewer := RemoveFirst(chans[1..], c);
      RemoveKeepsOrder(accepted, chans[1..], c);
      RemoveFirstMembers(chans[1..], c);
      forall y | y in fewer ensures Before(accepted, chans[0], y) {
        var k :| 0 <= k < |chans[1..]| && chans[1..][k] == y;
        assert Before(accepted, chans[0], chans[k + 1]);
      }
    }
  }

  lemma StepOrder(s: State, a: Action)
    requires Inv(s) && Enabled(s, a) && InOrder(s.accepted, s.chans)
    ensures InOrder(Apply(s, a).accepted, Apply(s, a).chans) <==> !Overtakes(s, a)
  {
    match a
    case Accept(c) => AcceptKeepsOrder(s, c);
    case Add(c) => AddKeepsOrder(s, c);
    case Remove(c) => RemoveKeepsOrder(s.accepted, s.chans, c);
    case ProbeRemoves(c) => RemoveKeepsOrder(s.accepted, s.chans, c);
    case _ => assert Apply(s, a).accepted == s.accepted && Apply(s, a).chans == s.chans;
  }

  lemma {:induction false} OrderFrom(s: State, acts: seq<Action>)
    requires Inv(s) && Possible(s, acts) && InOrder(s.accepted, s.chans)
    ensures AlwaysInOrder(s, acts) <==> NoneOvertakes(s, acts)
    decreases |acts|
  {
    if acts == [] {
    } else {
      StepOrder(s, acts[0]);
      ApplyKeepsInv(s, acts[0]);
      if !Overtakes(s, acts[0]) { OrderFrom(Apply(s, acts[0]), acts[1..]); }
    }
  }

  /** The set is in acceptance order all along exactly in the runs in which no channel is added
      while the set holds one that was accepted after it. */
  lemma AcceptanceOrderExactlyWhen(acts: seq<Action>)
    requires Possible(INITIAL, acts)
    ensures AlwaysInOrder(INITIAL, acts) <==> NoneOvertakes(INITIAL, acts)
  {
    OrderFrom(INITIAL, acts);
  }

  /** Two handlers accept, and the one that accepted second adds first. */
  lemma AddsCanOvertake()
    ensures var acts := [Accept(1), Accept(2), Add(2), Add(1)];
            && Possible(INITIAL, acts)
            && RunFrom(INITIAL, acts).accepted == [1, 2] && RunFrom(INITIAL, acts).chans == [2, 1]
  {
    var acts := [Accept(1), Accept(2), Add(2), Add(1)];
    var s1 := Apply(INITIAL, Accept(1));
    var s2 := Apply(s1, Accept(2));
    var s3 := Apply(s2, Add(2));
    assert Enabled(s3, Add(1)) && Apply(s3, Add(1)).chans == [2, 1];
    assert acts[1..] == [Accept(2), Add(2), Add(1)];
    assert acts[1..][1..] == [Add(2), Add(1)];
    assert [Add(2), Add(1)][1..] == [Add(1)] && [Add(1)][1..] == [];
    assert Possible(s3, [Add(1)]) && Possible(s2, [Add(2), Add(1)]);
  }
}
