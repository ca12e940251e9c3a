/** bicopy of tcpip.go: two copiers between two connections, half-close, abort and join. */
module Bicopy {
  import opened Basics

  /** The two connections c1 and c2. Direction `d` reads from side `d` and writes to the other. */
  datatype Side = C1 | C2 {
    function Other(): Side {
      if C1? then C2 else C1
    }
  }

  datatype Pair<T> = Pair(c1: T, c2: T) {
    function At(side: Side): T {
      if side.C1? then c1 else c2
    }

    function Put(side: Side, x: T): Pair<T> {
      if side.C1? then Pair(x, c2) else Pair(c1, x)
    }
  }

  /** A copier: in Read; in Write with bytes it has read; in CloseWrite; about to post its
      result; gone. */
  datatype Phase = Reading | Writing(bytes: Bytes) | HalfClosing | Posting(ok: bool) | Gone(ok: bool)

  datatype Copier = Copier(phase: Phase, read: Bytes, written: Bytes)

  /** What this process has done to a connection. */
  datatype Conn = Conn(closed: bool, writeClosed: bool)

  /** The joining loop: in its select, or between Close calls of an abort or of the deferred
      clean-up. */
  datatype Joiner = Selecting | AbortSecond | FinalFirst | FinalSecond | Returned

  /** What the peer on a side has sent so far, and whether an EOF followed. It may go on for ever. */
  datatype Peer = Peer(sent: Bytes, ended: bool)

  /** `results` are the posted results not yet received, `closes` the Close calls so far. */
  datatype State = State(
    copiers: Pair<Copier>, conns: Pair<Conn>, peers: Pair<Peer>, results: seq<bool>,
    joiner: Joiner, completed: nat, aborted: bool, cancelled: bool, closes: seq<Side>)

  const INITIAL := State(
    Pair(Copier(Reading, [], []), Copier(Reading, [], [])), Pair(Conn(false, false), Conn(false, false)),
    Pair(Peer([], false), Peer([], false)), [], Selecting, 0, false, false, [])

  /** Steps of the copier of direction `d`, of the joining loop, and of the surroundings. */
  datatype Action =
    | Read(d: Side, n: nat)
    | ReadEof(d: Side)
    | ReadFails(d: Side)
    | Write(d: Side)
    | WriteFails(d: Side, n: nat)
    | CloseWrite(d: Side, ok: bool)      // an io.EOF from CloseWrite counts as ok
    | Post(d: Side)
    | SeeCancel                          // the select picks the ended context
    | SeeResult                          // the select picks a result
    | CloseNext                          // the next Close call of an abort or of the clean-up
    | Cancel                             // the context ends
    | PeerSends(side: Side, bytes: Bytes)
    | PeerEnds(side: Side)

  /** Who takes a step; the surroundings are no actor. */
  datatype Actor = OneCopier(d: Side) | TheJoiner

  function By(a: Action): Option<Actor> {
    match a
    case Cancel | PeerSends(_, _) | PeerEnds(_) => None
    case SeeCancel | SeeResult | CloseNext => Some(TheJoiner)
    case _ => Some(OneCopier(a.d))
  }

  /** A read returns data that has been sent, ends at the sender's end, and may fail, or end at
      once on a connection closed here. A write to a connection closed here fails. */
  predicate Enabled(s: State, a: Action) {
    match a
    case Read(d, n) =>
      s.copiers.At(d).phase.Reading? && n > 0 && |s.copiers.At(d).read| + n <= |s.peers.At(d).sent|
    case ReadEof(d) =>
      s.copiers.At(d).phase.Reading?
      && (s.conns.At(d).closed || (s.peers.At(d).ended && s.copiers.At(d).read == s.peers.At(d).sent))
    case ReadFails(d) => s.copiers.At(d).phase.Reading?
    case Write(d) => s.copiers.At(d).phase.Writing? && !s.conns.At(d.Other()).closed
    case WriteFails(d, n) => s.copiers.At(d).phase.Writing? && n <= |s.copiers.At(d).phase.bytes|
    case CloseWrite(d, ok) => s.copiers.At(d).phase.HalfClosing?
    case Post(d) => s.copiers.At(d).phase.Posting?
    case SeeCancel => s.joiner.Selecting? && s.completed < 2 && s.cancelled
    case SeeResult => s.joiner.Selecting? && s.completed < 2 && s.results != []
    case CloseNext => !s.joiner.Returned? && (s.joiner.Selecting? ==> s.completed >= 2)
    case Cancel => !s.cancelled
    case PeerSends(side, _) => !s.peers.At(side).ended
    case PeerEnds(side) => !s.peers.At(side).ended
  }

  function SetCopier(s: State, d: Side, c: Copier): State {
    s.(copiers := s.copiers.Put(d, c))
  }

  function Closed(s: State, side: Side): State {
    s.(conns := s.conns.Put(side, s.conns.At(side).(closed := true)), closes := s.closes + [side])
  }

  /** The flag, and the first of the two Close calls. */
  function Abort(s: State): State {
    Closed(s.(aborted := true, joiner := AbortSecond), C1)
  }

  function Apply(s: State, a: Action): State
    requires Enabled(s, a)
  {
    match a
    case Read(d, n) =>
      var c := s.copiers.At(d);
      var chunk := s.peers.At(d).sent[|c.read|..|c.read| + n];
      SetCopier(s, d, c.(phase := Writing(chunk), read := c.read + chunk))
    case ReadEof(d) => SetCopier(s, d, s.copiers.At(d).(phase := HalfClosing))
    case ReadFails(d) => SetCopier(s, d, s.copiers.At(d).(phase := Posting(false)))
    case Write(d) =>
      var c := s.copiers.At(d);
      SetCopier(s, d, c.(phase := Reading, written := c.written + c.phase.bytes))
    case WriteFails(d, n) =>
      var c := s.copiers.At(d);
      SetCopier(s, d, c.(phase := Posting(false), written := c.written + c.phase.bytes[..n]))
    case CloseWrite(d, ok) =>
      var t := SetCopier(s, d, s.copiers.At(d).(phase := Posting(ok)));
      if ok then t.(conns := t.conns.Put(d.Other(), t.conns.At(d.Other()).(writeClosed := true))) else t
    case Post(d) =>
      var c := s.copiers.At(d);
      SetCopier(s, d, c.(phase := Gone(c.phase.ok))).(results := s.results + [c.phase.ok])
    case SeeCancel => if s.aborted then s else Abort(s)
    case SeeResult =>
      var t := s.(results := s.results[1..], completed := s.completed + 1);
      if !s.results[0] && !s.aborted then Abort(t) else t
    case CloseNext => CloseStep(s)
    case Cancel => s.(cancelled := true)
    case PeerSends(side, bytes) =>
      s.(peers := s.peers.Put(side, s.peers.At(side).(sent := s.peers.At(side).sent + bytes)))
    case PeerEnds(side) => s.(peers := s.peers.Put(side, s.peers.At(side).(ended := true)))
  }

  function CloseStep(s: State): State {
    match s.joiner
    case AbortSecond => Closed(s, C2).(joiner := Selecting)
    case Selecting => s.(joiner := FinalFirst)
    case FinalFirst => Closed(s, C1).(joiner := FinalSecond)
    case FinalSecond => Closed(s, C2).(joiner := Returned)
    case Returned => s
  }

  // ---------------------------------------------------------------- the invariant

  function OneIfGone(c: Copier): nat {
    if c.phase.Gone? then 1 else 0
  }

  function CountGone(s: State): nat {
    OneIfGone(s.copiers.c1) + OneIfGone(s.copiers.c2)
  }

  function Pending(p: Phase): Bytes {
    if p.Writing? then p.bytes else []
  }

  predicate Succeeded(p: Phase) {
    p == Posting(true) || p == Gone(true)
  }

  predicate Failed(p: Phase) {
    p == Posting(false) || p == Gone(false)
  }

  /** Written is a prefix of read, and read of what was sent; a copier that has not failed has
      written all it read but the bytes in its hand. */
  predicate Prefixes(sent: Bytes, c: Copier) {
    c.read <= sent && c.written <= c.read && (!Failed(c.phase) ==> c.written + Pending(c.phase) == c.read)
  }

  /** All that the peer sent, up to its EOF, has been written. */
  predicate Delivered(p: Peer, c: Copier) {
    p.ended && c.written == p.sent
  }

  predicate CopyAgrees(s: State, d: Side) {
    var c := s.copiers.At(d);
    && Prefixes(s.peers.At(d).sent, c)
    && (s.conns.At(d.Other()).writeClosed <==> Succeeded(c.phase))
    && (!s.aborted && (c.phase.HalfClosing? || Succeeded(c.phase)) ==> Delivered(s.peers.At(d), c))
  }

  /** Each result is posted once and counted once. */
  predicate ResultsAgree(s: State) {
    && s.completed + |s.results| == CountGone(s)
    && (s.joiner.FinalFirst? || s.joiner.FinalSecond? || s.joiner.Returned? ==> s.completed == 2)
  }

  predicate ClosesAgree(s: State) {
    && (s.aborted ==> s.conns.c1.closed && (!s.joiner.AbortSecond? ==> s.conns.c2.closed))
    && (s.joiner.AbortSecond? ==> s.aborted)
    && (s.joiner.FinalSecond? ==> s.conns.c1.closed)
    && (s.joiner.Returned? ==> s.conns.c1.closed && s.conns.c2.closed)
    && (s.conns.c1.closed || s.conns.c2.closed ==> s.aborted || s.joiner.FinalSecond? || s.joiner.Returned?)
  }

  predicate SomeFailed(s: State) {
    s.copiers.c1.phase == Gone(false) || s.copiers.c2.phase == Gone(false)
  }

  /** A failure that was posted is in the channel or has led to the abort, and every abort has
      its cause. */
  predicate Caused(s: State) {
    && (false in s.results ==> SomeFailed(s))
    && (s.aborted ==> s.cancelled || SomeFailed(s))
    && (SomeFailed(s) && !s.aborted ==> false in s.results)
  }

  predicate Inv(s: State) {
    CopyAgrees(s, C1) && CopyAgrees(s, C2) && ResultsAgree(s) && ClosesAgree(s) && Caused(s)
  }

  lemma ReadKeepsPrefixes(sent: Bytes, c: Copier, n: nat)
    requires Prefixes(sent, c) && c.phase.Reading? && |c.read| + n <= |sent|
    ensures var chunk := sent[|c.read|..|c.read| + n];
            Prefixes(sent, c.(phase := Writing(chunk), read := c.read + chunk))
  {
    var chunk := sent[|c.read|..|c.read| + n];
    assert c.written + [] == c.read;
    assert c.read + chunk == sent[..|c.read| + n];
  }

  lemma WriteKeepsPrefixes(sent: Bytes, c: Copier, n: nat)
    requires Prefixes(sent, c) && c.phase.Writing? && n <= |c.phase.bytes|
    ensures Prefixes(sent, c.(phase := Reading, written := c.written + c.phase.bytes))
    ensures Prefixes(sent, c.(phase := Posting(false), written := c.written + c.phase.bytes[..n]))
  {
    assert c.written + c.phase.bytes + [] == c.read;
    assert c.written + c.phase.bytes[..n] == c.read[..|c.written| + n];
  }

  // What a step of each kind leaves alone.

  predicate SameCloses(s: State, t: State) {
    t.conns.c1.closed == s.conns.c1.closed && t.conns.c2.closed == s.conns.c2.closed
  }

  predicate SameLoop(s: State, t: State) {
    t.joiner == s.joiner && t.completed == s.completed && t.aborted == s.aborted && t.closes == s.closes
  }

  lemma JoinerFrame(s: State, a: Action)
    requires Enabled(s, a) && By(a) == Some(TheJoiner)
    ensures var t := Apply(s, a);
            && t.copiers == s.copiers && t.peers == s.peers && t.cancelled == s.cancelled
            && t.conns.c1.writeClosed == s.conns.c1.writeClosed && t.conns.c2.writeClosed == s.conns.c2.writeClosed
            && (s.conns.c1.closed ==> t.conns.c1.closed) && (s.conns.c2.closed ==> t.conns.c2.closed)
            && (s.aborted ==> t.aborted)
  {
  }

  lemma CopierFrame(s: State, a: Action, d: Side)
    requires Enabled(s, a) && By(a) == Some(OneCopier(d))
    ensures var t := Apply(s, a);
            && t.copiers.At(d.Other()) == s.copiers.At(d.Other()) && t.peers == s.peers && t.cancelled == s.cancelled
            && t.conns.At(d).writeClosed == s.conns.At(d).writeClosed
            && SameCloses(s, t) && SameLoop(s, t) && (!a.Post? ==> t.results == s.results)
  {
  }

  lemma OutsideFrame(s: State, a: Action)
    requires Enabled(s, a) && By(a).None?
    ensures var t := Apply(s, a);
            && t.copiers == s.copiers && t.conns == s.conns && SameLoop(s, t) && t.results == s.results
            && (s.cancelled ==> t.cancelled)
            && forall d: Side ::
                 && (s.peers.At(d).ended ==> t.peers.At(d) == s.peers.At(d)) && s.peers.At(d).sent <= t.peers.At(d).sent
  {
    var t := Apply(s, a);
    if a.PeerSends? {
      assert t.peers.At(a.side).sent == s.peers.At(a.side).sent + a.bytes;
      assert t.peers.At(a.side.Other()) == s.peers.At(a.side.Other());
    } else if a.PeerEnds? {
      assert t.peers.At(a.side.Other()) == s.peers.At(a.side.Other());
    }
  }

  predicate CopyCarriesOver(s: State, t: State, d: Side) {
    && t.copiers.At(d) == s.copiers.At(d)
    && s.peers.At(d).sent <= t.peers.At(d).sent
    && (s.peers.At(d).ended ==> t.peers.At(d) == s.peers.At(d))
    && t.conns.At(d.Other()).writeClosed == s.conns.At(d.Other()).writeClosed
    && (s.aborted ==> t.aborted)
  }

  /** A step of the joiner, of the other copier, or of the surroundings. */
  lemma OthersCarryOver(s: State, a: Action, d: Side)
    requires Enabled(s, a) && By(a) != Some(OneCopier(d))
    ensures CopyCarriesOver(s, Apply(s, a), d)
  {
    match By(a)
    case None => OutsideFrame(s, a);
    case Some(TheJoiner) => JoinerFrame(s, a);
    case Some(OneCopier(e)) => CopierFrame(s, a, e);
  }

  lemma CarriedCopyAgrees(s: State, t: State, d: Side)
    requires CopyAgrees(s, d) && CopyCarriesOver(s, t, d)
    ensures CopyAgrees(t, d)
  {
  }

  lemma ReadsKeepCopy(s: State, a: Action, d: Side)
    requires CopyAgrees(s, d) && ResultsAgree(s) && ClosesAgree(s) && Enabled(s, a)
    requires (a.Read? || a.ReadEof? || a.ReadFails?) && a.d == d
    ensures CopyAgrees(Apply(s, a), d)
  {
    var c := s.copiers.At(d);
    assert c.written + [] == c.read;
    if a.Read? { ReadKeepsPrefixes(s.peers.At(d).sent, c, a.n); }
  }

  lemma WritesKeepCopy(s: State, a: Action, d: Side)
    requires CopyAgrees(s, d) && Enabled(s, a)
    requires (a.Write? || a.WriteFails?) && a.d == d
    ensures CopyAgrees(Apply(s, a), d)
  {
    WriteKeepsPrefixes(s.peers.At(d).sent, s.copiers.At(d), if a.WriteFails? then a.n else 0);
  }

  lemma EndsKeepCopy(s: State, a: Action, d: Side)
    requires CopyAgrees(s, d) && Enabled(s, a)
    requires (a.CloseWrite? || a.Post?) && a.d == d
    ensures CopyAgrees(Apply(s, a), d)
  {
  }

  lemma ApplyKeepsCopy(s: State, a: Action, d: Side)
    requires CopyAgrees(s, d) && ResultsAgree(s) && ClosesAgree(s) && Enabled(s, a)
    ensures CopyAgrees(Apply(s, a), d)
  {
    if By(a) != Some(OneCopier(d)) {
      OthersCarryOver(s, a, d);
      CarriedCopyAgrees(s, Apply(s, a), d);
    } else if a.Read? || a.ReadEof? || a.ReadFails? {
      ReadsKeepCopy(s, a, d);
    } else if a.Write? || a.WriteFails? {
      WritesKeepCopy(s, a, d);
    } else {
      EndsKeepCopy(s, a, d);
    }
  }

  lemma PostKeepsResults(s: State, d: Side)
    requires ResultsAgree(s) && Enabled(s, Post(d))
    ensures ResultsAgree(Apply(s, Post(d)))
  {
  }

  lemma JoinerKeepsResults(s: State, a: Action)
    requires ResultsAgree(s) && Enabled(s, a) && By(a) == Some(TheJoiner)
    ensures ResultsAgree(Apply(s, a))
  {
    JoinerFrame(s, a);
  }

  lemma CopyingKeepsResults(s: State, a: Action, d: Side)
    requires ResultsAgree(s) && Enabled(s, a) && By(a) == Some(OneCopier(d)) && !a.Post?
    ensures ResultsAgree(Apply(s, a))
  {
    CopierFrame(s, a, d);
    assert !s.copiers.At(d).phase.Gone? && !Apply(s, a).copiers.At(d).phase.Gone?;
  }

  lemma ApplyKeepsResults(s: State, a: Action)
    requires ResultsAgree(s) && Enabled(s, a)
    ensures ResultsAgree(Apply(s, a))
  {
    match By(a)
    case None => OutsideFrame(s, a);
    case Some(TheJoiner) => JoinerKeepsResults(s, a);
    case Some(OneCopier(d)) => if a.Post? { PostKeepsResults(s, d); } else { CopyingKeepsResults(s, a, d); }
  }

  lemma JoinerKeepsCloses(s: State, a: Action)
    requires ClosesAgree(s) && Enabled(s, a) && By(a) == Some(TheJoiner)
    ensures ClosesAgree(Apply(s, a))
  {
  }

  lemma ApplyKeepsCloses(s: State, a: Action)
    requires ClosesAgree(s) && Enabled(s, a)
    ensures ClosesAgree(Apply(s, a))
  {
    match By(a)
    case None => OutsideFrame(s, a);
    case Some(TheJoiner) => JoinerKeepsCloses(s, a);
    case Some(OneCopier(d)) => CopierFrame(s, a, d);
  }

  lemma PostKeepsCaused(s: State, d: Side)
    requires Caused(s) && Enabled(s, Post(d))
    ensures Caused(Apply(s, Post(d)))
  {
    var t := Apply(s, Post(d));
    assert t.results[|s.results|] == s.copiers.At(d).phase.ok;
    assert t.copiers.At(d.Other()) == s.copiers.At(d.Other());
    assert SomeFailed(t) <==> t.copiers.At(d).phase == Gone(false) || t.copiers.At(d.Other()).phase == Gone(false);
  }

  lemma ReceiveKeepsCaused(s: State)
    requires Caused(s) && Enabled(s, SeeResult)
    ensures Caused(Apply(s, SeeResult))
  {
    assert s.results == [s.results[0]] + s.results[1..];
  }

  lemma CopyingKeepsCaused(s: State, a: Action, d: Side)
    requires Caused(s) && Enabled(s, a) && By(a) == Some(OneCopier(d)) && !a.Post?
    ensures Caused(Apply(s, a))
  {
    CopierFrame(s, a, d);
    assert !s.copiers.At(d).phase.Gone? && !Apply(s, a).copiers.At(d).phase.Gone?;
  }

  lemma ApplyKeepsCaused(s: State, a: Action)
    requires Caused(s) && Enabled(s, a)
    ensures Caused(Apply(s, a))
  {
    match By(a)
    case None => OutsideFrame(s, a);
    case Some(TheJoiner) => if a.SeeResult? { ReceiveKeepsCaused(s); } else { JoinerFrame(s, a); }
    case Some(OneCopier(d)) => if a.Post? { PostKeepsCaused(s, d); } else { CopyingKeepsCaused(s, a, d); }
  }

  lemma ApplyKeepsInv(s: State, a: Action)
    requires Inv(s) && Enabled(s, a)
    ensures Inv(Apply(s, a))
  {
    ApplyKeepsCopy(s, a, C1);
    ApplyKeepsCopy(s, a, C2);
    ApplyKeepsResults(s, a);
    ApplyKeepsCloses(s, a);
    ApplyKeepsCaused(s, a);
  }

  predicate Possible(s: State, acts: seq<Action>)
    decreases |acts|
  {
    acts == [] || (Enabled(s, acts[0]) && Possible(Apply(s, acts[0]), acts[1..]))
  }

  function RunFrom(s: State, acts: seq<Action>): State
    requires Possible(s, acts)
    decreases |acts|
  {
    if acts == [] then s else RunFrom(Apply(s, acts[0]), acts[1..])
  }

  lemma {:induction false} RunKeepsInv(s: State, acts: seq<Action>)
    requires Inv(s) && Possible(s, acts)
    ensures Inv(RunFrom(s, acts))
    decreases |acts|
  {
    if acts == [] {
    } else {
      ApplyKeepsInv(s, acts[0]);
      RunKeepsInv(Apply(s, acts[0]), acts[1..]);
    }
  }

  // ---------------------------------------------------------------- safety, over all runs

  /** In every run the bytes written each way are a prefix of the bytes read, and those of what
      the peer has sent. */
  lemma WrittenIsPrefixOfRead(acts: seq<Action>, d: Side)
    requires Possible(INITIAL, acts)
    ensures var s := RunFrom(INITIAL, acts);
            s.copiers.At(d).written <= s.copiers.At(d).read <= s.peers.At(d).sent
  {
    RunKeepsInv(INITIAL, acts);
  }

  /** How many bytes a step reads, and how many it writes, in direction `d`. */
  function ReadBy(a: Action, d: Side): nat {
    if a.Read? && a.d == d then a.n else 0
  }

  function WrittenBy(s: State, a: Action, d: Side): nat {
    if a.Write? && a.d == d then |Pending(s.copiers.At(d).phase)|
    else if a.WriteFails? && a.d == d then a.n
    else 0
  }

  function ReadIn(acts: seq<Action>, d: Side): nat {
    if acts == [] then 0 else ReadBy(acts[0], d) + ReadIn(acts[1..], d)
  }

  function WrittenIn(s: State, acts: seq<Action>, d: Side): nat
    requires Possible(s, acts)
    decreases |acts|
  {
    if acts == [] then 0 else WrittenBy(s, acts[0], d) + WrittenIn(Apply(s, acts[0]), acts[1..], d)
  }

  lemma StepCounts(s: State, a: Action, d: Side)
    requires Enabled(s, a)
    ensures var c := Apply(s, a).copiers.At(d);
            && |c.read| == |s.copiers.At(d).read| + ReadBy(a, d)
            && |c.written| == |s.copiers.At(d).written| + WrittenBy(s, a, d)
  {
    match By(a)
    case None => OutsideFrame(s, a);
    case Some(TheJoiner) => JoinerFrame(s, a);
    case Some(OneCopier(e)) => CopierFrame(s, a, e);
  }

  lemma {:induction false} CountsFrom(s: State, acts: seq<Action>, d: Side)
    requires Possible(s, acts)
    ensures var c := RunFrom(s, acts).copiers.At(d);
            && |c.read| == |s.copiers.At(d).read| + ReadIn(acts, d)
            && |c.written| == |s.copiers.At(d).written| + WrittenIn(s, acts, d)
    decreases |acts|
  {
    if acts == [] {
    } else {
      StepCounts(s, acts[0], d);
      CountsFrom(Apply(s, acts[0]), acts[1..], d);
    }
  }

  /** Over all runs exactly the first bytes that the peer sent have been read, and the first bytes
      read have been written, as many as the reads and writes of the run moved, failed writes
      included. */
  lemma BytesAddUp(acts: seq<Action>, d: Side)
    requires Possible(INITIAL, acts)
    ensures var s := RunFrom(INITIAL, acts);
            var sent := s.peers.At(d).sent;
            && ReadIn(acts, d) <= |sent| && s.copiers.At(d).read == sent[..ReadIn(acts, d)]
            && WrittenIn(INITIAL, acts, d) <= |sent| && s.copiers.At(d).written == sent[..WrittenIn(INITIAL, acts, d)]
  {
    CountsFrom(INITIAL, acts, d);
    WrittenIsPrefixOfRead(acts, d);
  }

  /** The steps in which the copy of direction `d` meets an error. */
  predicate Fails(a: Action, d: Side) {
    a == ReadFails(d) || (a.WriteFails? && a.d == d) || a == CloseWrite(d, false)
  }

  predicate SomeStepFails(acts: seq<Action>, d: Side) {
    exists i :: 0 <= i < |acts| && Fails(acts[i], d)
  }

  lemma FirstOrLater(acts: seq<Action>, d: Side)
    requires acts != []
    ensures SomeStepFails(acts, d) <==> Fails(acts[0], d) || SomeStepFails(acts[1..], d)
    ensures Cancel in acts <==> acts[0] == Cancel || Cancel in acts[1..]
  {
    if SomeStepFails(acts[1..], d) {
      var i :| 0 <= i < |acts[1..]| && Fails(acts[1..][i], d);
      assert Fails(acts[i + 1], d);
    }
    if SomeStepFails(acts, d) {
      var i :| 0 <= i < |acts| && Fails(acts[i], d);
      assert i > 0 ==> Fails(acts[1..][i - 1], d);
    }
  }

  lemma StepFails(s: State, a: Action, d: Side)
    requires Enabled(s, a)
    ensures Failed(Apply(s, a).copiers.At(d).phase) <==> Failed(s.copiers.At(d).phase) || Fails(a, d)
    ensures Apply(s, a).cancelled <==> s.cancelled || a == Cancel
  {
    match By(a)
    case None => OutsideFrame(s, a);
    case Some(TheJoiner) => JoinerFrame(s, a);
    case Some(OneCopier(e)) => CopierFrame(s, a, e);
  }

  lemma {:induction false} TroubleFrom(s: State, acts: seq<Action>, d: Side)
    requires Possible(s, acts)
    ensures var t := RunFrom(s, acts);
            && (Failed(t.copiers.At(d).phase) <==> Failed(s.copiers.At(d).phase) || SomeStepFails(acts, d))
            && (t.cancelled <==> s.cancelled || Cancel in acts)
    decreases |acts|
  {
    if acts == [] {
    } else {
      StepFails(s, acts[0], d);
      TroubleFrom(Apply(s, acts[0]), acts[1..], d);
      FirstOrLater(acts, d);
    }
  }

  /** Over all runs a copy has failed exactly when a read, a write or the half-close of it has. */
  lemma FailedExactlyWhen(acts: seq<Action>, d: Side)
    requires Possible(INITIAL, acts)
    ensures Failed(RunFrom(INITIAL, acts).copiers.At(d).phase) <==> SomeStepFails(acts, d)
  {
    TroubleFrom(INITIAL, acts, d);
  }

  /** No context end and no error among the steps. */
  predicate NoTrouble(acts: seq<Action>) {
    Cancel !in acts && !SomeStepFails(acts, C1) && !SomeStepFails(acts, C2)
  }

  lemma NoTroubleNoAbort(s: State)
    requires Inv(s) && !s.cancelled && !Failed(s.copiers.c1.phase) && !Failed(s.copiers.c2.phase)
    ensures !s.aborted
    ensures s.conns.c1.closed || s.conns.c2.closed ==> s.copiers.c1.phase == s.copiers.c2.phase == Gone(true)
  {
  }

  lemma NoTroubleDelivers(s: State, d: Side)
    requires CopyAgrees(s, d) && !s.aborted
    ensures s.conns.At(d.Other()).writeClosed ==> Delivered(s.peers.At(d), s.copiers.At(d))
    ensures s.copiers.At(d).phase == Gone(true) ==> Delivered(s.peers.At(d), s.copiers.At(d))
  {
  }

  /** In a run in which the context does not end and no read, write or half-close fails, nothing
      is aborted, a write half is closed only after all that the other peer sends, up to its EOF,
      has been written to it, and no connection is fully closed before both directions are done. */
  lemma WithoutTroubleEverythingArrives(acts: seq<Action>)
    requires Possible(INITIAL, acts) && NoTrouble(acts)
    ensures var s := RunFrom(INITIAL, acts);
            && !s.aborted
            && (forall d: Side :: s.conns.At(d.Other()).writeClosed ==> Delivered(s.peers.At(d), s.copiers.At(d)))
            && (s.conns.c1.closed || s.conns.c2.closed ==>
                  forall d: Side :: s.copiers.At(d).phase == Gone(true) && Delivered(s.peers.At(d), s.copiers.At(d)))
  {
    RunKeepsInv(INITIAL, acts);
    TroubleFrom(INITIAL, acts, C1);
    TroubleFrom(INITIAL, acts, C2);
    var s := RunFrom(INITIAL, acts);
    NoTroubleNoAbort(s);
    NoTroubleDelivers(s, C1);
    NoTroubleDelivers(s, C2);
  }

  /** The Close calls that the joiner has made when it stands at `j`: both connections once when
      it has aborted, and both once more in the end. */
  function CallsAt(j: Joiner, aborted: bool): seq<Side> {
    (if !aborted then [] else if j.AbortSecond? then [C1] else [C1, C2])
    + (if j.FinalSecond? then [C1] else if j.Returned? then [C1, C2] else [])
  }

  lemma JoinerKeepsCalls(s: State, a: Action)
    requires ClosesAgree(s) && s.closes == CallsAt(s.joiner, s.aborted) && Enabled(s, a) && By(a) == Some(TheJoiner)
    ensures var t := Apply(s, a); t.closes == CallsAt(t.joiner, t.aborted)
  {
  }

  lemma {:induction false} RunKeepsCalls(s: State, acts: seq<Action>)
    requires ClosesAgree(s) && s.closes == CallsAt(s.joiner, s.aborted) && Possible(s, acts)
    ensures var t := RunFrom(s, acts); t.closes == CallsAt(t.joiner, t.aborted)
    decreases |acts|
  {
    if acts == [] {
    } else {
      var a := acts[0];
      ApplyKeepsCloses(s, a);
      match By(a) {
        case None => OutsideFrame(s, a);
        case Some(TheJoiner) => JoinerKeepsCalls(s, a);
        case Some(OneCopier(d)) => CopierFrame(s, a, d);
      }
      RunKeepsCalls(Apply(s, a), acts[1..]);
    }
  }

  /** On return both copiers have posted, both results were received, and both connections are
      closed; they were closed once when something went wrong and once more in the end. */
  lemma ReturnJoinsEverything(acts: seq<Action>)
    requires Possible(INITIAL, acts) && RunFrom(INITIAL, acts).joiner.Returned?
    ensures var s := RunFrom(INITIAL, acts);
            && s.copiers.c1.phase.Gone? && s.copiers.c2.phase.Gone? && s.results == []
            && s.conns.c1.closed && s.conns.c2.closed
            && s.closes == (if s.aborted then [C1, C2] else []) + [C1, C2]
  {
    RunKeepsInv(INITIAL, acts);
    RunKeepsCalls(INITIAL, acts);
  }

  // ---------------------------------------------------------------- who can go on

  /** After an abort the select may pick the ended context again and again; that changes nothing. */
  predicate Spin(s: State, a: Action) {
    a.SeeCancel? && s.aborted
  }

  /** A step of actor `x` that changes something. */
  predicate Moves(s: State, a: Action, x: Actor) {
    Enabled(s, a) && By(a) == Some(x) && !Spin(s, a)
  }

  /** Steps that happen without waiting for a peer, given that closing unblocks I/O. With
      `served` also those that need the peers to go on sending and reading. */
  predicate Unblocked(s: State, a: Action, served: bool) {
    match a
    case Read(_, _) => served
    case ReadEof(d) => served || s.conns.At(d).closed
    case Write(_) => served
    case WriteFails(d, n) => n == 0 && s.conns.At(d.Other()).closed
    case ReadFails(_) => false
    case _ => By(a).Some?
  }

  /** Actor `x` has a step to take that no peer can hold up. */
  predicate Ready(s: State, x: Actor, served: bool) {
    match x
    case TheJoiner =>
      !s.joiner.Returned? && (s.joiner.Selecting? && s.completed < 2 ==> s.results != [] || (s.cancelled && !s.aborted))
    case OneCopier(d) =>
      match s.copiers.At(d).phase
      case Reading =>
        s.conns.At(d).closed
        || (served && (|s.copiers.At(d).read| < |s.peers.At(d).sent| || s.peers.At(d).ended))
      case Writing(_) => served || s.conns.At(d.Other()).closed
      case Gone(_) => false
      case _ => true
  }

  lemma StepOf(s: State, x: Actor, served: bool) returns (a: Action)
    requires Inv(s) && Ready(s, x, served)
    ensures Moves(s, a, x) && Unblocked(s, a, served)
  {
    match x
    case TheJoiner =>
      a := if !s.joiner.Selecting? || s.completed >= 2 then CloseNext
           else if s.results != [] then SeeResult
           else SeeCancel;
    case OneCopier(d) =>
      match s.copiers.At(d).phase
      case Reading =>
        a := if s.conns.At(d).closed || s.copiers.At(d).read == s.peers.At(d).sent then ReadEof(d) else Read(d, 1);
      case Writing(_) => a := if s.conns.At(d.Other()).closed then WriteFails(d, 0) else Write(d);
      case HalfClosing => a := CloseWrite(d, true);
      case Posting(_) => a := Post(d);
  }

  lemma ReadyMeansAStep(s: State, x: Actor, served: bool)
    requires Inv(s)
    ensures Ready(s, x, served) <==> exists a :: Moves(s, a, x) && Unblocked(s, a, served)
  {
    if Ready(s, x, served) {
      var a := StepOf(s, x, served);
      assert Moves(s, a, x) && Unblocked(s, a, served);
    }
  }

  lemma OthersKeepCopierReady(s: State, a: Action, d: Side, served: bool)
    requires Ready(s, OneCopier(d), served) && Enabled(s, a) && By(a) != Some(OneCopier(d))
    ensures Ready(Apply(s, a), OneCopier(d), served)
  {
    match By(a)
    case None => OutsideFrame(s, a);
    case Some(TheJoiner) => JoinerFrame(s, a);
    case Some(OneCopier(e)) => CopierFrame(s, a, e);
  }

  lemma OthersKeepJoinerReady(s: State, a: Action, served: bool)
    requires Ready(s, TheJoiner, served) && Enabled(s, a) && By(a) != Some(TheJoiner)
    ensures Ready(Apply(s, a), TheJoiner, served)
  {
    match By(a)
    case None => OutsideFrame(s, a);
    case Some(OneCopier(d)) =>
      CopierFrame(s, a, d);
      if a.Post? { assert Apply(s, a).results != []; }
  }

  /** Only its own step takes an actor's readiness away. */
  lemma OthersKeepReady(s: State, a: Action, x: Actor, served: bool)
    requires Ready(s, x, served) && Enabled(s, a) && !Moves(s, a, x)
    ensures Ready(Apply(s, a), x, served)
  {
    if Spin(s, a) {
      assert Apply(s, a) == s;
    } else if x.OneCopier? {
      OthersKeepCopierReady(s, a, x.d, served);
    } else {
      OthersKeepJoinerReady(s, a, served);
    }
  }

  // ---------------------------------------------------------------- endless runs

  /** At each time the chosen action happens if it can. */
  ghost predicate IsRun(run: nat -> State, choice: nat -> Action) {
    run(0) == INITIAL
    && forall i: nat :: run(i + 1) == if Enabled(run(i), choice(i)) then Apply(run(i), choice(i)) else run(i)
  }

  ghost predicate ReadyFrom(run: nat -> State, x: Actor, served: bool, i: nat) {
    forall j: nat :: j >= i ==> Ready(run(j), x, served)
  }

  ghost predicate MovesFrom(run: nat -> State, choice: nat -> Action, x: Actor, i: nat) {
    exists j: nat :: j >= i && Moves(run(j), choice(j), x)
  }

  /** Weak fairness for each actor: one that stays ready moves at some time. For the joiner this
      says that its select does not pass over a result for ever. */
  ghost predicate Fair(run: nat -> State, choice: nat -> Action, served: bool) {
    forall x: Actor, i: nat :: ReadyFrom(run, x, served, i) ==> MovesFrom(run, choice, x, i)
  }

  lemma {:induction false} RunInv(run: nat -> State, choice: nat -> Action, i: nat)
    requires IsRun(run, choice)
    ensures Inv(run(i))
    decreases i
  {
    if i == 0 {
    } else {
      RunInv(run, choice, i - 1);
      var k: nat := i - 1;
      assert run(k + 1) == run(i);
      if Enabled(run(k), choice(k)) { ApplyKeepsInv(run(k), choice(k)); }
    }
  }

  lemma {:induction false} StaysReady(run: nat -> State, choice: nat -> Action, x: Actor, served: bool, i: nat, j: nat)
    requires IsRun(run, choice) && Ready(run(i), x, served) && i <= j
    requires forall k: nat :: i <= k < j ==> !Moves(run(k), choice(k), x)
    ensures Ready(run(j), x, served)
    decreases j - i
  {
    if i == j {
    } else {
      var k: nat := j - 1;
      StaysReady(run, choice, x, served, i, k);
      assert run(k + 1) == run(j) && !Moves(run(k), choice(k), x);
      if Enabled(run(k), choice(k)) { OthersKeepReady(run(k), choice(k), x, served); }
    }
  }

  lemma IdleStaysReady(run: nat -> State, choice: nat -> Action, x: Actor, served: bool, i: nat)
    requires IsRun(run, choice) && Ready(run(i), x, served) && !MovesFrom(run, choice, x, i)
    ensures ReadyFrom(run, x, served, i)
  {
    forall j: nat | j >= i ensures Ready(run(j), x, served) {
      StaysReady(run, choice, x, served, i, j);
    }
  }

  /** In a fair run an actor that is ready moves. */
  lemma ReadyMoves(run: nat -> State, choice: nat -> Action, x: Actor, served: bool, i: nat) returns (j: nat)
    requires IsRun(run, choice) && Fair(run, choice, served) && Ready(run(i), x, served)
    ensures j >= i && Moves(run(j), choice(j), x)
  {
    if !MovesFrom(run, choice, x, i) { IdleStaysReady(run, choice, x, served, i); }
    j :| j >= i && Moves(run(j), choice(j), x);
  }

  // ---------------------------------------------------------------- what is left to do

  function JoinerRank(j: Joiner): nat {
    match j
    case AbortSecond => 4
    case Selecting => 3
    case FinalFirst => 2
    case FinalSecond => 1
    case Returned => 0
  }

  function JoinWork(s: State): nat {
    (if s.completed < 2 then 4 * (2 - s.completed) else 0) + (if s.aborted then 0 else 3) + JoinerRank(s.joiner)
  }

  function PhaseRank(p: Phase, served: bool): nat {
    match p
    case Reading => 4
    case Writing(_) => if served then 5 else 3
    case HalfClosing => 2
    case Posting(_) => 1
    case Gone(_) => 0
  }

  /** With serving peers that have ended, the unread bytes count too. */
  function CopierWork(p: Peer, c: Copier, served: bool): nat {
    (if served && |c.read| <= |p.sent| then 5 * (|p.sent| - |c.read|) else 0) + PhaseRank(c.phase, served)
  }

  function Work(s: State, served: bool): nat {
    CopierWork(s.peers.c1, s.copiers.c1, served) + CopierWork(s.peers.c2, s.copiers.c2, served) + JoinWork(s)
  }

  predicate BothClosed(s: State) {
    s.conns.c1.closed && s.conns.c2.closed
  }

  predicate CopyDone(p: Phase) {
    p.Posting? || p.Gone?
  }

  /** Finitely many steps are left: with serving peers, because they have ended; otherwise
      because nothing more can be written, or no copier is copying. */
  predicate Settled(s: State, served: bool) {
    if served then s.peers.c1.ended && s.peers.c2.ended
    else BothClosed(s) || (CopyDone(s.copiers.c1.phase) && CopyDone(s.copiers.c2.phase))
  }

  lemma CopierKeepsSettled(s: State, a: Action, served: bool, d: Side)
    requires Settled(s, served) && Enabled(s, a) && By(a) == Some(OneCopier(d))
    ensures Settled(Apply(s, a), served)
  {
    CopierFrame(s, a, d);
    if CopyDone(s.copiers.At(d).phase) { assert CopyDone(Apply(s, a).copiers.At(d).phase); }
  }

  lemma SettledStays(s: State, a: Action, served: bool)
    requires Settled(s, served) && Enabled(s, a)
    ensures Settled(Apply(s, a), served)
  {
    match By(a)
    case None =>
      OutsideFrame(s, a);
      if served { assert Apply(s, a).peers.At(C1).ended && Apply(s, a).peers.At(C2).ended; }
    case Some(TheJoiner) => JoinerFrame(s, a);
    case Some(OneCopier(d)) => CopierKeepsSettled(s, a, served, d);
  }

  lemma CopierStepShrinks(s: State, a: Action, served: bool, d: Side)
    requires Settled(s, served) && Enabled(s, a) && By(a) == Some(OneCopier(d))
    ensures CopierWork(s.peers.At(d), Apply(s, a).copiers.At(d), served)
          < CopierWork(s.peers.At(d), s.copiers.At(d), served)
  {
  }

  lemma JoinerStepShrinks(s: State, a: Action)
    requires Moves(s, a, TheJoiner)
    ensures JoinWork(Apply(s, a)) < JoinWork(s)
  {
  }

  lemma JoinWorkStays(s: State, a: Action)
    requires Enabled(s, a) && (By(a) != Some(TheJoiner) || Spin(s, a))
    ensures JoinWork(Apply(s, a)) == JoinWork(s)
  {
    match By(a)
    case None => OutsideFrame(s, a);
    case Some(TheJoiner) =>
    case Some(OneCopier(d)) => CopierFrame(s, a, d);
  }

  lemma CopierStepLeavesLess(s: State, a: Action, served: bool, d: Side)
    requires Settled(s, served) && Enabled(s, a) && By(a) == Some(OneCopier(d))
    ensures Work(Apply(s, a), served) < Work(s, served)
  {
    CopierFrame(s, a, d);
    JoinWorkStays(s, a);
    CopierStepShrinks(s, a, served, d);
  }

  lemma SurroundingsAddNothing(s: State, a: Action, served: bool)
    requires Settled(s, served) && Enabled(s, a) && By(a).None?
    ensures Work(Apply(s, a), served) == Work(s, served)
  {
    OutsideFrame(s, a);
    JoinWorkStays(s, a);
    if served { assert Apply(s, a).peers.At(C1) == s.peers.At(C1) && Apply(s, a).peers.At(C2) == s.peers.At(C2); }
  }

  lemma JoinerStepLeavesLess(s: State, a: Action, served: bool)
    requires Enabled(s, a) && By(a) == Some(TheJoiner)
    ensures if Spin(s, a) then Work(Apply(s, a), served) == Work(s, served)
            else Work(Apply(s, a), served) < Work(s, served)
  {
    JoinerFrame(s, a);
    if Spin(s, a) { JoinWorkStays(s, a); } else { JoinerStepShrinks(s, a); }
  }

  /** Every step of an actor but the spinning select leaves less to do, and no step leaves more. */
  lemma StepsLeaveLessWork(s: State, a: Action, served: bool)
    requires Settled(s, served) && Enabled(s, a)
    ensures Settled(Apply(s, a), served)
    ensures if By(a).Some? && !Spin(s, a) then Work(Apply(s, a), served) < Work(s, served)
            else Work(Apply(s, a), served) == Work(s, served)
  {
    SettledStays(s, a, served);
    match By(a)
    case None => SurroundingsAddNothing(s, a, served);
    case Some(TheJoiner) => JoinerStepLeavesLess(s, a, served);
    case Some(OneCopier(d)) => CopierStepLeavesLess(s, a, served, d);
  }

  lemma {:induction false} WorkShrinks(run: nat -> State, choice: nat -> Action, served: bool, i: nat, j: nat)
    requires IsRun(run, choice) && i <= j && Settled(run(i), served)
    ensures Settled(run(j), served) && Work(run(j), served) <= Work(run(i), served)
    decreases j - i
  {
    if i == j {
    } else {
      var k: nat := j - 1;
      WorkShrinks(run, choice, served, i, k);
      assert run(k + 1) == run(j);
      if Enabled(run(k), choice(k)) { StepsLeaveLessWork(run(k), choice(k), served); }
    }
  }

  /** Until the return some actor is ready. */
  lemma SomeoneReady(s: State, served: bool) returns (x: Actor)
    requires Inv(s) && Settled(s, served) && !s.joiner.Returned?
    ensures Ready(s, x, served)
  {
    if Ready(s, TheJoiner, served) {
      x := TheJoiner;
    } else if s.copiers.c1.phase.Gone? {
      x := OneCopier(C2);
    } else {
      x := OneCopier(C1);
    }
  }

  /** A fair run returns from every settled state. */
  lemma {:induction false} ReturnsFrom(run: nat -> State, choice: nat -> Action, served: bool, i: nat) returns (n: nat)
    requires IsRun(run, choice) && Fair(run, choice, served) && Settled(run(i), served)
    ensures n >= i && run(n).joiner.Returned?
    decreases Work(run(i), served)
  {
    RunInv(run, choice, i);
    if run(i).joiner.Returned? {
      n := i;
    } else {
      var x := SomeoneReady(run(i), served);
      var j := ReadyMoves(run, choice, x, served, i);
      WorkShrinks(run, choice, served, i, j);
      StepsLeaveLessWork(run(j), choice(j), served);
      assert run(j + 1) == Apply(run(j), choice(j));
      n := ReturnsFrom(run, choice, served, j + 1);
    }
  }

  // ---------------------------------------------------------------- trouble ends the wait

  /** The context has ended or a copy has failed. */
  predicate Troubled(s: State) {
    s.cancelled || Failed(s.copiers.c1.phase) || Failed(s.copiers.c2.phase)
  }

  /** What no step of a copier takes back. */
  predicate PhaseOnward(p: Phase, q: Phase) {
    (CopyDone(p) ==> CopyDone(q) && q.ok == p.ok) && (p.Gone? ==> q.Gone?)
  }

  predicate CopiesOnward(s: State, t: State) {
    PhaseOnward(s.copiers.c1.phase, t.copiers.c1.phase) && PhaseOnward(s.copiers.c2.phase, t.copiers.c2.phase)
  }

  predicate Onward(s: State, t: State) {
    CopiesOnward(s, t) && (s.cancelled ==> t.cancelled) && JoinWork(t) <= JoinWork(s)
  }

  lemma CopierIsOnward(s: State, a: Action, d: Side)
    requires Enabled(s, a) && By(a) == Some(OneCopier(d))
    ensures PhaseOnward(s.copiers.At(d).phase, Apply(s, a).copiers.At(d).phase)
  {
  }

  lemma StepIsOnward(s: State, a: Action)
    requires Enabled(s, a)
    ensures Onward(s, Apply(s, a))
  {
    match By(a)
    case None =>
      OutsideFrame(s, a);
      JoinWorkStays(s, a);
    case Some(TheJoiner) =>
      JoinerFrame(s, a);
      if Spin(s, a) { JoinWorkStays(s, a); } else { JoinerStepShrinks(s, a); }
    case Some(OneCopier(d)) =>
      CopierFrame(s, a, d);
      JoinWorkStays(s, a);
      CopierIsOnward(s, a, d);
  }

  lemma {:induction false} RunIsOnward(run: nat -> State, choice: nat -> Action, i: nat, j: nat)
    requires IsRun(run, choice) && i <= j
    ensures Onward(run(i), run(j))
    decreases j - i
  {
    if i == j {
    } else {
      var k: nat := j - 1;
      RunIsOnward(run, choice, i, k);
      assert run(k + 1) == run(j);
      if Enabled(run(k), choice(k)) { StepIsOnward(run(k), choice(k)); }
    }
  }

  /** Who takes trouble further: the joiner, unless a failure has not been posted yet. */
  lemma Responsible(s: State) returns (x: Actor)
    requires Inv(s) && Troubled(s) && !BothClosed(s)
    ensures Ready(s, x, false)
    ensures x.OneCopier? ==> s.copiers.At(x.d).phase.Posting?
  {
    if s.cancelled || s.aborted || SomeFailed(s) {
      x := TheJoiner;
    } else if Failed(s.copiers.c1.phase) {
      x := OneCopier(C1);
    } else {
      x := OneCopier(C2);
    }
  }

  /** Once the context has ended or a copy has failed, there is always a step that no peer can
      hold up, until the return. */
  lemma NeverStuckAfterTrouble(s: State) returns (x: Actor, a: Action)
    requires Inv(s) && Troubled(s) && !s.joiner.Returned?
    ensures Moves(s, a, x) && Unblocked(s, a, false)
  {
    if BothClosed(s) {
      x := SomeoneReady(s, false);
    } else {
      x := Responsible(s);
    }
    a := StepOf(s, x, false);
  }

  lemma {:induction false} ClosesBoth(run: nat -> State, choice: nat -> Action, i: nat) returns (n: nat)
    requires IsRun(run, choice) && Fair(run, choice, false) && Troubled(run(i))
    ensures n >= i && BothClosed(run(n))
    decreases JoinWork(run(i)), 2 - CountGone(run(i))
  {
    RunInv(run, choice, i);
    if BothClosed(run(i)) {
      n := i;
    } else {
      var x := Responsible(run(i));
      var j := ReadyMoves(run, choice, x, false, i);
      RunIsOnward(run, choice, i, j);
      RunIsOnward(run, choice, j, j + 1);
      assert run(j + 1) == Apply(run(j), choice(j));
      if x.TheJoiner? {
        JoinerStepShrinks(run(j), choice(j));
      } else {
        assert CountGone(run(j + 1)) > CountGone(run(j));
      }
      n := ClosesBoth(run, choice, j + 1);
    }
  }

  /** With closing unblocking I/O, every fair run in which the context ends or a copy fails
      returns, whatever the peers do and however much they send. */
  lemma TroubledRunReturns(run: nat -> State, choice: nat -> Action, i: nat)
    requires IsRun(run, choice) && Fair(run, choice, false) && Troubled(run(i))
    ensures exists n: nat :: run(n).joiner.Returned?
  {
    var k := ClosesBoth(run, choice, i);
    var n := ReturnsFrom(run, choice, false, k);
  }

  /** What ends the wait: trouble, or the success of both copies. */
  predicate WaitIsOver(s: State) {
    Troubled(s) || (Succeeded(s.copiers.c1.phase) && Succeeded(s.copiers.c2.phase))
  }

  /** Exactly the fair runs in which at some time the context has ended, a copy has failed, or
      both copies have succeeded, return. */
  lemma ReturnsExactlyWhen(run: nat -> State, choice: nat -> Action)
    requires IsRun(run, choice) && Fair(run, choice, false)
    ensures (exists n: nat :: run(n).joiner.Returned?) <==> (exists i: nat :: WaitIsOver(run(i)))
  {
    if n: nat :| run(n).joiner.Returned? {
      RunInv(run, choice, n);
      assert WaitIsOver(run(n));
    }
    if i: nat :| WaitIsOver(run(i)) {
      if Troubled(run(i)) {
        TroubledRunReturns(run, choice, i);
      } else {
        var n := ReturnsFrom(run, choice, false, i);
      }
    }
  }

  /** Every fair run returns when both peers end and keep reading. */
  lemma EndingRunReturns(run: nat -> State, choice: nat -> Action, i: nat)
    requires IsRun(run, choice) && Fair(run, choice, true)
    requires run(i).peers.c1.ended && run(i).peers.c2.ended
    ensures exists n: nat :: run(n).joiner.Returned?
  {
    var n := ReturnsFrom(run, choice, true, i);
  }

  // ---------------------------------------------------------------- a run that meets the premises

  /** The context ends, the joiner aborts, both copiers come to their end, and the joiner
      returns; after that a peer goes on sending for ever. */
  function Turn(i: nat): Action {
    match i
    case 0 => Cancel
    case 1 => SeeCancel
    case 2 => CloseNext
    case 3 => ReadEof(C1)
    case 4 => CloseWrite(C1, true)
    case 5 => Post(C1)
    case 6 => ReadEof(C2)
    case 7 => CloseWrite(C2, true)
    case 8 => Post(C2)
    case 9 => SeeResult
    case 10 => SeeResult
    case 11 => CloseNext
    case 12 => CloseNext
    case 13 => CloseNext
    case _ => PeerSends(C1, [0])
  }

  function WitnessRun(i: nat): State {
    if i == 0 then INITIAL
    else
      var s := WitnessRun(i - 1);
      if Enabled(s, Turn(i - 1)) then Apply(s, Turn(i - 1)) else s
  }

  predicate AllOver(s: State) {
    s.joiner.Returned? && s.copiers.c1.phase.Gone? && s.copiers.c2.phase.Gone?
  }

  lemma WitnessStep(i: nat, s: State, a: Action) returns (t: State)
    requires WitnessRun(i) == s && Turn(i) == a && Enabled(s, a)
    ensures WitnessRun(i + 1) == t == Apply(s, a)
  {
    t := Apply(s, a);
  }

  function Ended(c1: Phase, c2: Phase, written1: bool, written2: bool, results: seq<bool>): State {
    State(Pair(Copier(c1, [], []), Copier(c2, [], [])), Pair(Conn(true, written1), Conn(true, written2)),
          INITIAL.peers, results, Selecting, 0, true, true, [C1, C2])
  }

  lemma WitnessAborts() returns (s: State)
    ensures WitnessRun(3) == s == Ended(Reading, Reading, false, false, [])
    ensures Troubled(WitnessRun(1))
  {
    s := WitnessStep(0, INITIAL, Cancel);
    s := WitnessStep(1, s, SeeCancel);
    s := WitnessStep(2, s, CloseNext);
  }

  lemma WitnessCopiesOne() returns (s: State)
    ensures WitnessRun(6) == s == Ended(Gone(true), Reading, false, true, [true])
  {
    s := WitnessAborts();
    s := WitnessStep(3, s, ReadEof(C1));
    s := WitnessStep(4, s, CloseWrite(C1, true));
    s := WitnessStep(5, s, Post(C1));
  }

  lemma WitnessCopiesBoth() returns (s: State)
    ensures WitnessRun(9) == s == Ended(Gone(true), Gone(true), true, true, [true, true])
  {
    s := WitnessCopiesOne();
    s := WitnessStep(6, s, ReadEof(C2));
    s := WitnessStep(7, s, CloseWrite(C2, true));
    s := WitnessStep(8, s, Post(C2));
  }

  lemma WitnessReturns()
    ensures AllOver(WitnessRun(14))
  {
    var s := WitnessCopiesBoth();
    s := WitnessStep(9, s, SeeResult);
    s := WitnessStep(10, s, SeeResult);
    s := WitnessStep(11, s, CloseNext);
    s := WitnessStep(12, s, CloseNext);
    s := WitnessStep(13, s, CloseNext);
  }

  lemma SendingChangesNoActor(s: State)
    requires AllOver(s) && Enabled(s, PeerSends(C1, [0]))
    ensures AllOver(Apply(s, PeerSends(C1, [0])))
  {
  }

  lemma {:induction false} WitnessStaysOver(i: nat)
    requires i >= 14
    ensures AllOver(WitnessRun(i))
    decreases i
  {
    if i == 14 {
      WitnessReturns();
    } else {
      WitnessStaysOver(i - 1);
      var s := WitnessRun(i - 1);
      assert Turn(i - 1) == PeerSends(C1, [0]);
      if Enabled(s, PeerSends(C1, [0])) { SendingChangesNoActor(s); }
    }
  }

  lemma NobodyStaysReady(x: Actor, served: bool, i: nat)
    ensures !ReadyFrom(WitnessRun, x, served, i)
  {
    var j: nat := if i < 14 then 14 else i;
    WitnessStaysOver(j);
    assert !Ready(WitnessRun(j), x, served);
  }

  lemma WitnessIsRun()
    ensures IsRun(WitnessRun, Turn)
  {
  }

  /** The premises of the claims about endless runs can be met together, with a peer that never
      stops sending. */
  lemma FairTroubledRunExists(served: bool)
    ensures IsRun(WitnessRun, Turn) && Fair(WitnessRun, Turn, served) && Troubled(WitnessRun(1))
  {
    var _ := WitnessAborts();
    WitnessIsRun();
    forall x: Actor, i: nat ensures !ReadyFrom(WitnessRun, x, served, i) {
      NobodyStaysReady(x, served, i);
    }
  }

  // ---------------------------------------------------------------- the joining loop

  /** What the select picks: the ended context, or a result. */
  datatype Pick = ContextDone | Result(ok: bool)

  function Results(picks: seq<Pick>): nat {
    if picks == [] then 0 else Results(picks[..|picks| - 1]) + (if picks[|picks| - 1].Result? then 1 else 0)
  }

  predicate Trouble(picks: seq<Pick>) {
    exists i :: 0 <= i < |picks| && (picks[i].ContextDone? || !picks[i].ok)
  }

  /** The loop over the picks that the select makes; with too few of them it is still waiting
      (`returned` is false). It stops at the second result, closes both connections once when
      something goes wrong, and both in the end. */
  method Join(picks: seq<Pick>) returns (used: nat, closes: seq<Side>, returned: bool)
    ensures used <= |picks| && returned == (Results(picks[..used]) == 2) && (!returned ==> used == |picks|)
    ensures Results(picks[..used]) <= 2 && (used > 0 && returned ==> Results(picks[..used - 1]) == 1)
    ensures closes == (if Trouble(picks[..used]) then [C1, C2] else []) + (if returned then [C1, C2] else [])
  {
    var completed, aborted := 0, false;
    used, closes := 0, [];
    while completed < 2 && used < |picks|
      invariant used <= |picks| && completed == Results(picks[..used]) <= 2
      invariant completed == 2 ==> used > 0 && Results(picks[..used - 1]) == 1
      invariant aborted == Trouble(picks[..used])
      invariant closes == if aborted then [C1, C2] else []
      decreases |picks| - used
    {
      var p := picks[used];
      assert picks[..used + 1][..used] == picks[..used];
      assert Trouble(picks[..used + 1]) == (Trouble(picks[..used]) || p.ContextDone? || !p.ok) by {
        if Trouble(picks[..used]) {
          var i :| 0 <= i < used && (picks[..used][i].ContextDone? || !picks[..used][i].ok);
          assert picks[..used + 1][i] == picks[..used][i];
        }
        assert picks[..used + 1][used] == p;
      }
      match p {
        case ContextDone =>
          if !aborted {
            aborted := true;
            closes := closes + [C1] + [C2];
          }
        case Result(ok) =>
          completed := completed + 1;
          if !ok && !aborted {
            aborted := true;
            closes := closes + [C1] + [C2];
          }
      }
      used := used + 1;
    }
    returned := completed == 2;
    if returned { closes := closes + [C1] + [C2]; }
  }
}
