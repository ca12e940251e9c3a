/** The session request machine of session.go: one request loop, the handler it starts,
    and the handler's calls to Exit, Break and Write. */
module Session {
  import opened Basics
  import opened Wire
  import Newlines
  import Shlex

  /** A string field is the value that gossh.Unmarshal leaves in it, "" when it fails. The
      three payloads with their own parsers carry the parser's answer. */
  datatype Request =
    | Run(exec: bool, value: string)
    | Subsystem(name: string)
    | Env(key: string, value: string)
    | Signal(name: string)
    | PtyReq(parsedPty: Option<Pty>)
    | X11Req(parsedX11: Option<X11>)
    | WindowChange(parsedWindow: Option<Window>)
    | AgentReq
    | KeepAlive(wantReply: bool)
    | BreakReq
    | Unknown

  function PtyRequest(payload: Bytes): Request {
    PtyReq(ParsePtyRequest(payload))
  }

  function X11Request(payload: Bytes): Request {
    X11Req(ParseX11Request(payload))
  }

  function WindowChangeRequest(payload: Bytes): Request {
    match ParseWindow(payload)
    case None => WindowChange(None)
    case Some(w) => WindowChange(Some(w.value))
  }

  datatype Reply = Reply(request: nat, ok: bool)

  /** A request taken from the stream, with the answer of the callback that guards it, if one is
      set, and the argument of its Reply call, if any. */
  datatype Handled = Handled(req: Request, callback: Option<bool>, verdict: Option<bool>)

  /** A callback that is not set allows everything. */
  predicate Allows(callback: Option<bool>) {
    callback.None? || callback.value
  }

  datatype Starter = ByCommand | BySubsystem(name: string)

  /** The fields of the session that requests set up; `starts` are the handlers started and
      `windows` the values sent on the window channel. */
  datatype SetUp = SetUp(
    handled: bool, pty: Option<Pty>, x11: Option<X11>, env: seq<string>, rawCmd: string, subsystem: string,
    starts: seq<Starter>, windows: seq<Window>)

  /** `exitCalls` are the codes passed to Exit, `statuses` the exit-status requests sent. */
  datatype Ending = Ending(exited: bool, exitCalls: seq<int>, statuses: seq<nat>, channelCloses: nat)

  datatype State = State(
    setUp: SetUp, ending: Ending, running: bool, listening: bool, ended: bool, winchCloses: nat,
    history: seq<Handled>, replies: seq<Reply>)

  const FRESH := SetUp(false, None, None, [], "", "", [], [])
  const INITIAL := State(FRESH, Ending(false, [], [], 0), false, false, false, 0, [], [])

  predicate HasHandler(handlers: set<string>, name: string) {
    name in handlers || "default" in handlers
  }

  /** The argument of the one Reply call, or None for the two cases without one. */
  function Verdict(handlers: set<string>, u: SetUp, listening: bool, r: Request, callback: Option<bool>): Option<bool> {
    match r
    case Run(_, _) => Some(!u.handled && Allows(callback))
    case Subsystem(name) => Some(!u.handled && Allows(callback) && HasHandler(handlers, name))
    case Env(_, _) => Some(!u.handled)
    case Signal(_) => None
    case PtyReq(p) => Some(!u.handled && u.pty.None? && p.Some? && Allows(callback))
    case X11Req(x) => Some(!u.handled && u.x11.None? && x.Some? && Allows(callback))
    case WindowChange(w) => Some(u.pty.Some? && w.Some?)
    case AgentReq => Some(true)
    case KeepAlive(wantReply) => if wantReply then Some(true) else None
    case BreakReq => Some(listening)
    case Unknown => Some(false)
  }

  function Accept(u: SetUp, r: Request): SetUp {
    match r
    case Run(_, value) => u.(handled := true, rawCmd := value, starts := u.starts + [ByCommand])
    case Subsystem(name) => u.(handled := true, subsystem := name, starts := u.starts + [BySubsystem(name)])
    case Env(key, value) => u.(env := u.env + [key + "=" + value])
    case PtyReq(Some(p)) => u.(pty := Some(p), windows := u.windows + [p.window])
    case X11Req(x) => u.(x11 := x)
    case WindowChange(Some(w)) =>
      if u.pty.None? then u else u.(pty := Some(u.pty.value.(window := w)), windows := u.windows + [w])
    case _ => u
  }

  /** A refused subsystem leaves its name behind; only the command is cleared. */
  function Refuse(u: SetUp, r: Request, callback: Option<bool>): SetUp {
    if u.handled then u
    else match r
      case Run(_, _) => u.(rawCmd := "")
      case Subsystem(name) => u.(subsystem := name, rawCmd := if Allows(callback) then u.rawCmd else "")
      case _ => u
  }

  predicate PassesThrough(r: Request) {
    r.Signal? || r.AgentReq? || r.KeepAlive? || r.BreakReq? || r.Unknown?
  }

  lemma PassingChangesNothing(u: SetUp, r: Request, callback: Option<bool>)
    requires PassesThrough(r)
    ensures Accept(u, r) == u && Refuse(u, r, callback) == u
  {
  }

  predicate StartsHandler(r: Request) {
    r.Run? || r.Subsystem?
  }

  /** One turn of the request loop. */
  function Handle(handlers: set<string>, s: State, r: Request, callback: Option<bool>): State {
    var v := Verdict(handlers, s.setUp, s.listening, r, callback);
    var yes := v == Some(true);
    s.(setUp := if yes then Accept(s.setUp, r) else Refuse(s.setUp, r, callback),
       running := s.running || (yes && StartsHandler(r)),
       history := s.history + [Handled(r, callback, v)],
       replies := s.replies + (if v.Some? then [Reply(|s.history|, v.value)] else []))
  }

  /** One call of Exit, all of it under the session's mutex; `sent` tells whether
      SendRequest succeeded. */
  function DoExit(e: Ending, code: int, sent: bool): Ending {
    if e.exited then e.(exitCalls := e.exitCalls + [code])
    else Ending(true, e.exitCalls + [code], e.statuses + [code % TWO_32], e.channelCloses + (if sent then 1 else 0))
  }

  /** The loop's deferred close, once the request stream has ended. */
  function EndLoop(s: State): State {
    s.(ended := true, winchCloses := s.winchCloses + (if s.setUp.pty.Some? then 1 else 0))
  }

  /** What can happen next, in any order. */
  datatype Input =
    | Incoming(req: Request, callback: Option<bool>)
    | ExitCall(code: int, sent: bool)
    | HandlerReturns(sent: bool)
    | RegisterBreak(on: bool)
    | StreamEnds

  /** An input that cannot happen in `s` (a request after the stream has ended, the return of
      a handler that is not running) changes nothing. */
  function Step(handlers: set<string>, s: State, i: Input): State {
    match i
    case Incoming(req, callback) => if s.ended then s else Handle(handlers, s, req, callback)
    case ExitCall(code, sent) => s.(ending := DoExit(s.ending, code, sent))
    case HandlerReturns(sent) => if s.running then s.(running := false, ending := DoExit(s.ending, 0, sent)) else s
    case RegisterBreak(on) => s.(listening := on)
    case StreamEnds => if s.ended then s else EndLoop(s)
  }

  function RunFrom(handlers: set<string>, s: State, inputs: seq<Input>): State
    decreases |inputs|
  {
    if inputs == [] then s else RunFrom(handlers, Step(handlers, s, inputs[0]), inputs[1..])
  }

  function RunAll(handlers: set<string>, inputs: seq<Input>): State {
    RunFrom(handlers, INITIAL, inputs)
  }

  // ---------------------------------------------------------------- what a history means

  predicate Silent(r: Request) {
    r.Signal? || (r.KeepAlive? && !r.wantReply)
  }

  predicate Accepted(h: Handled) {
    h.verdict == Some(true)
  }

  predicate StartedBy(h: Handled) {
    Accepted(h) && StartsHandler(h.req)
  }

  predicate Started(hs: seq<Handled>) {
    exists i :: 0 <= i < |hs| && StartedBy(hs[i])
  }

  /** The reply to the request at position `i`, if it gets one. */
  function ReplyTo(i: nat, h: Handled): seq<Reply> {
    if h.verdict.Some? then [Reply(i, h.verdict.value)] else []
  }

  /** One reply for each request that is not silent, in request order. */
  function RepliesOf(hs: seq<Handled>): seq<Reply> {
    if hs == [] then [] else RepliesOf(hs[..|hs| - 1]) + ReplyTo(|hs| - 1, hs[|hs| - 1])
  }

  function StartOf(h: Handled): seq<Starter> {
    if !StartedBy(h) then [] else if h.req.Run? then [ByCommand] else [BySubsystem(h.req.name)]
  }

  function StartsOf(hs: seq<Handled>): seq<Starter> {
    if hs == [] then [] else StartsOf(hs[..|hs| - 1]) + StartOf(hs[|hs| - 1])
  }

  /** The accepted pairs, in order. */
  function EnvOf(hs: seq<Handled>): seq<string> {
    if hs == [] then []
    else
      var h := hs[|hs| - 1];
      EnvOf(hs[..|hs| - 1]) + (if h.req.Env? && Accepted(h) then [h.req.key + "=" + h.req.value] else [])
  }

  /** The value of the accepted shell or exec request. */
  function CommandOf(hs: seq<Handled>): string {
    if hs == [] then ""
    else
      var h := hs[|hs| - 1];
      if h.req.Run? && Accepted(h) then h.req.value else CommandOf(hs[..|hs| - 1])
  }

  /** The name in the last subsystem request that came before any start, accepted or not. */
  function SubsystemOf(hs: seq<Handled>): string {
    if hs == [] then ""
    else
      var h := hs[|hs| - 1];
      if h.req.Subsystem? && !Started(hs[..|hs| - 1]) then h.req.name else SubsystemOf(hs[..|hs| - 1])
  }

  /** The accepted PTY request. */
  function PtyOf(hs: seq<Handled>): Option<Pty> {
    if hs == [] then None
    else
      var h := hs[|hs| - 1];
      if h.req.PtyReq? && Accepted(h) then h.req.parsedPty else PtyOf(hs[..|hs| - 1])
  }

  function X11Of(hs: seq<Handled>): Option<X11> {
    if hs == [] then None
    else
      var h := hs[|hs| - 1];
      if h.req.X11Req? && Accepted(h) then h.req.parsedX11 else X11Of(hs[..|hs| - 1])
  }

  function WindowOf(before: Option<Pty>, h: Handled): seq<Window> {
    if h.req.PtyReq? && Accepted(h) && h.req.parsedPty.Some? then [h.req.parsedPty.value.window]
    else if h.req.WindowChange? && before.Some? && h.req.parsedWindow.Some? then [h.req.parsedWindow.value]
    else []
  }

  /** The initial window of the accepted PTY request, then every parsed window change, in order. */
  function WindowsOf(hs: seq<Handled>): seq<Window> {
    if hs == [] then []
    else WindowsOf(hs[..|hs| - 1]) + WindowOf(PtyOf(hs[..|hs| - 1]), hs[|hs| - 1])
  }

  /** When a request is answered yes, told from the requests before it. Only the answer to a
      break request depends on something else, the registered break channel. */
  predicate RightVerdict(handlers: set<string>, before: seq<Handled>, h: Handled) {
    && (h.verdict.None? <==> Silent(h.req))
    && match h.req
       case Run(_, _) => Accepted(h) <==> !Started(before) && Allows(h.callback)
       case Subsystem(name) =>
         Accepted(h) <==> !Started(before) && Allows(h.callback) && (name in handlers || "default" in handlers)
       case Env(_, _) => Accepted(h) <==> !Started(before)
       case PtyReq(p) => Accepted(h) <==> !Started(before) && PtyOf(before).None? && p.Some? && Allows(h.callback)
       case X11Req(x) => Accepted(h) <==> !Started(before) && X11Of(before).None? && x.Some? && Allows(h.callback)
       case WindowChange(w) => Accepted(h) <==> PtyOf(before).Some? && w.Some?
       case AgentReq => Accepted(h)
       case KeepAlive(want) => Accepted(h) <==> want
       case Unknown => !Accepted(h)
       case _ => true
  }

  ghost predicate RightVerdicts(handlers: set<string>, hs: seq<Handled>) {
    forall i :: 0 <= i < |hs| ==> RightVerdict(handlers, hs[..i], hs[i])
  }

  // ---------------------------------------------------------------- the invariant

  predicate StartAgrees(u: SetUp, hs: seq<Handled>) {
    u.handled == Started(hs) && u.starts == StartsOf(hs) && |u.starts| == (if u.handled then 1 else 0)
  }

  predicate CommandAgrees(u: SetUp, hs: seq<Handled>) {
    u.rawCmd == CommandOf(hs) && (!u.handled ==> u.rawCmd == "") && u.subsystem == SubsystemOf(hs)
  }

  predicate FieldsAgree(u: SetUp, hs: seq<Handled>) {
    u.env == EnvOf(hs) && u.x11 == X11Of(hs)
  }

  /** The window stream: everything sent, and the field that mirrors the last value sent. */
  predicate WindowsAgree(u: SetUp, hs: seq<Handled>) {
    && u.windows == WindowsOf(hs)
    && u.pty.Some? == PtyOf(hs).Some?
    && (u.pty.None? ==> u.windows == [])
    && (u.pty.Some? ==>
          && u.windows != [] && u.pty.value.window == u.windows[|u.windows| - 1]
          && u.windows[0] == PtyOf(hs).value.window
          && u.pty.value == PtyOf(hs).value.(window := u.pty.value.window))
  }

  predicate EndingAgrees(e: Ending) {
    && e.exited == (e.exitCalls != [])
    && e.statuses == (if e.exitCalls == [] then [] else [e.exitCalls[0] % TWO_32])
    && e.channelCloses <= |e.statuses|
  }

  predicate SetUpAgrees(u: SetUp, hs: seq<Handled>) {
    StartAgrees(u, hs) && CommandAgrees(u, hs) && FieldsAgree(u, hs) && WindowsAgree(u, hs)
  }

  ghost predicate Inv(handlers: set<string>, s: State) {
    && s.replies == RepliesOf(s.history)
    && RightVerdicts(handlers, s.history)
    && SetUpAgrees(s.setUp, s.history)
    && EndingAgrees(s.ending)
    && s.winchCloses == (if s.ended && s.setUp.pty.Some? then 1 else 0)
  }

  lemma Grow(hs: seq<Handled>, h: Handled)
    ensures (hs + [h])[..|hs|] == hs && (hs + [h])[|hs + [h]| - 1] == h
    ensures Started(hs + [h]) <==> Started(hs) || StartedBy(h)
  {
    if Started(hs) {
      var i :| 0 <= i < |hs| && StartedBy(hs[i]);
      assert StartedBy((hs + [h])[i]);
    }
    if StartedBy(h) { assert StartedBy((hs + [h])[|hs|]); }
  }

  lemma RightVerdictsGrow(handlers: set<string>, hs: seq<Handled>, h: Handled)
    requires RightVerdicts(handlers, hs) && RightVerdict(handlers, hs, h)
    ensures RightVerdicts(handlers, hs + [h])
  {
    forall i | 0 <= i < |hs + [h]| ensures RightVerdict(handlers, (hs + [h])[..i], (hs + [h])[i]) {
      if i < |hs| {
        assert (hs + [h])[..i] == hs[..i];
      } else {
        assert (hs + [h])[..i] == hs;
      }
    }
  }

  lemma VerdictIsRight(handlers: set<string>, u: SetUp, listening: bool, hs: seq<Handled>, r: Request,
                       callback: Option<bool>)
    requires u.handled == Started(hs) && u.pty.Some? == PtyOf(hs).Some? && u.x11 == X11Of(hs)
    ensures RightVerdict(handlers, hs, Handled(r, callback, Verdict(handlers, u, listening, r, callback)))
  {
  }

  lemma RepliesGrow(hs: seq<Handled>, h: Handled)
    ensures RepliesOf(hs + [h]) == RepliesOf(hs) + ReplyTo(|hs|, h)
  {
    assert (hs + [h])[..|hs|] == hs;
  }

  lemma AcceptStart(u: SetUp, hs: seq<Handled>, r: Request, callback: Option<bool>)
    requires StartAgrees(u, hs) && (StartsHandler(r) ==> !u.handled)
    ensures StartAgrees(Accept(u, r), hs + [Handled(r, callback, Some(true))])
  {
    Grow(hs, Handled(r, callback, Some(true)));
  }

  lemma AcceptCommand(u: SetUp, hs: seq<Handled>, r: Request, callback: Option<bool>)
    requires u.handled == Started(hs) && CommandAgrees(u, hs) && (StartsHandler(r) ==> !u.handled)
    ensures CommandAgrees(Accept(u, r), hs + [Handled(r, callback, Some(true))])
  {
    Grow(hs, Handled(r, callback, Some(true)));
  }

  lemma AcceptFields(u: SetUp, hs: seq<Handled>, r: Request, callback: Option<bool>)
    requires FieldsAgree(u, hs)
    ensures FieldsAgree(Accept(u, r), hs + [Handled(r, callback, Some(true))])
  {
    Grow(hs, Handled(r, callback, Some(true)));
  }

  lemma AcceptWindows(u: SetUp, hs: seq<Handled>, r: Request, callback: Option<bool>)
    requires WindowsAgree(u, hs)
    requires r.PtyReq? ==> u.pty.None? && r.parsedPty.Some?
    requires r.WindowChange? ==> u.pty.Some? && r.parsedWindow.Some?
    ensures WindowsAgree(Accept(u, r), hs + [Handled(r, callback, Some(true))])
  {
    Grow(hs, Handled(r, callback, Some(true)));
  }

  lemma AcceptAgrees(u: SetUp, hs: seq<Handled>, r: Request, callback: Option<bool>)
    requires SetUpAgrees(u, hs)
    requires StartsHandler(r) ==> !u.handled
    requires r.PtyReq? ==> u.pty.None? && r.parsedPty.Some?
    requires r.WindowChange? ==> u.pty.Some? && r.parsedWindow.Some?
    ensures SetUpAgrees(Accept(u, r), hs + [Handled(r, callback, Some(true))])
  {
    AcceptStart(u, hs, r, callback);
    AcceptCommand(u, hs, r, callback);
    AcceptFields(u, hs, r, callback);
    AcceptWindows(u, hs, r, callback);
  }

  lemma RefuseCommand(u: SetUp, hs: seq<Handled>, r: Request, callback: Option<bool>, v: Option<bool>)
    requires u.handled == Started(hs) && CommandAgrees(u, hs) && v != Some(true)
    ensures CommandAgrees(Refuse(u, r, callback), hs + [Handled(r, callback, v)])
  {
    Grow(hs, Handled(r, callback, v));
  }

  lemma RefuseStart(u: SetUp, hs: seq<Handled>, r: Request, callback: Option<bool>, v: Option<bool>)
    requires StartAgrees(u, hs) && v != Some(true)
    ensures StartAgrees(Refuse(u, r, callback), hs + [Handled(r, callback, v)])
  {
    Grow(hs, Handled(r, callback, v));
  }

  lemma RefuseFields(u: SetUp, hs: seq<Handled>, r: Request, callback: Option<bool>, v: Option<bool>)
    requires FieldsAgree(u, hs) && WindowsAgree(u, hs) && v != Some(true)
    requires r.WindowChange? ==> u.pty.None? || r.parsedWindow.None?
    ensures FieldsAgree(Refuse(u, r, callback), hs + [Handled(r, callback, v)])
    ensures WindowsAgree(Refuse(u, r, callback), hs + [Handled(r, callback, v)])
  {
    Grow(hs, Handled(r, callback, v));
  }

  lemma RefuseAgrees(u: SetUp, hs: seq<Handled>, r: Request, callback: Option<bool>, v: Option<bool>)
    requires SetUpAgrees(u, hs) && v != Some(true)
    requires r.WindowChange? ==> u.pty.None? || r.parsedWindow.None?
    ensures SetUpAgrees(Refuse(u, r, callback), hs + [Handled(r, callback, v)])
  {
    RefuseStart(u, hs, r, callback, v);
    RefuseCommand(u, hs, r, callback, v);
    RefuseFields(u, hs, r, callback, v);
  }

  lemma HandleSetUpAgrees(handlers: set<string>, s: State, r: Request, callback: Option<bool>)
    requires SetUpAgrees(s.setUp, s.history)
    ensures var t := Handle(handlers, s, r, callback); SetUpAgrees(t.setUp, t.history)
  {
    var v := Verdict(handlers, s.setUp, s.listening, r, callback);
    if v == Some(true) {
      AcceptAgrees(s.setUp, s.history, r, callback);
    } else {
      RefuseAgrees(s.setUp, s.history, r, callback, v);
    }
  }

  lemma HandleVerdicts(handlers: set<string>, s: State, r: Request, callback: Option<bool>)
    requires SetUpAgrees(s.setUp, s.history) && RightVerdicts(handlers, s.history)
    ensures RightVerdicts(handlers, Handle(handlers, s, r, callback).history)
  {
    VerdictIsRight(handlers, s.setUp, s.listening, s.history, r, callback);
    RightVerdictsGrow(handlers, s.history, Handled(r, callback, Verdict(handlers, s.setUp, s.listening, r, callback)));
  }

  lemma HandleKeepsInv(handlers: set<string>, s: State, r: Request, callback: Option<bool>)
    requires Inv(handlers, s) && !s.ended
    ensures Inv(handlers, Handle(handlers, s, r, callback))
  {
    HandleVerdicts(handlers, s, r, callback);
    HandleSetUpAgrees(handlers, s, r, callback);
    RepliesGrow(s.history, Handled(r, callback, Verdict(handlers, s.setUp, s.listening, r, callback)));
  }

  lemma ExitAgrees(e: Ending, code: int, sent: bool)
    requires EndingAgrees(e)
    ensures EndingAgrees(DoExit(e, code, sent))
  {
  }

  lemma StepKeepsInv(handlers: set<string>, s: State, i: Input)
    requires Inv(handlers, s)
    ensures Inv(handlers, Step(handlers, s, i))
  {
    match i
    case Incoming(req, callback) => if !s.ended { HandleKeepsInv(handlers, s, req, callback); }
    case ExitCall(code, sent) => ExitAgrees(s.ending, code, sent);
    case HandlerReturns(sent) => ExitAgrees(s.ending, 0, sent);
    case _ =>
  }

  lemma {:induction false} RunKeepsInv(handlers: set<string>, s: State, inputs: seq<Input>)
    requires Inv(handlers, s)
    ensures Inv(handlers, RunFrom(handlers, s, inputs))
    decreases |inputs|
  {
    if inputs == [] {
    } else {
      StepKeepsInv(handlers, s, inputs[0]);
      RunKeepsInv(handlers, Step(handlers, s, inputs[0]), inputs[1..]);
    }
  }

  // ---------------------------------------------------------------- over all runs

  /** The requests that the loop takes from the stream: those before its end. */
  function Taken(inputs: seq<Input>): seq<Request> {
    if inputs == [] then []
    else match inputs[0]
      case Incoming(req, _) => [req] + Taken(inputs[1..])
      case StreamEnds => []
      case _ => Taken(inputs[1..])
  }

  function Requests(hs: seq<Handled>): seq<Request> {
    seq(|hs|, i requires 0 <= i < |hs| => hs[i].req)
  }

  lemma StepTakes(handlers: set<string>, s: State, i: Input)
    ensures Requests(Step(handlers, s, i).history)
         == Requests(s.history) + (if i.Incoming? && !s.ended then [i.req] else [])
    ensures Step(handlers, s, i).ended == (s.ended || i.StreamEnds?)
  {
  }

  lemma {:induction false} HistoryIsTaken(handlers: set<string>, s: State, inputs: seq<Input>)
    ensures Requests(RunFrom(handlers, s, inputs).history)
         == Requests(s.history) + (if s.ended then [] else Taken(inputs))
    decreases |inputs|
  {
    if inputs == [] {
    } else {
      var i, t := inputs[0], Step(handlers, s, inputs[0]);
      StepTakes(handlers, s, i);
      HistoryIsTaken(handlers, t, inputs[1..]);
      if i.Incoming? && !s.ended {
        Shlex.Regroup(Requests(s.history), [i.req], Taken(inputs[1..]));
      }
    }
  }

  predicate Answers(hs: seq<Handled>, r: Reply) {
    r.request < |hs| && hs[r.request].verdict == Some(r.ok)
  }

  lemma {:induction false} RepliesAnswer(hs: seq<Handled>)
    ensures forall r :: r in RepliesOf(hs) ==> Answers(hs, r)
    decreases |hs|
  {
    if hs == [] {
    } else {
      var init, last := hs[..|hs| - 1], hs[|hs| - 1];
      RepliesAnswer(init);
      forall r | r in RepliesOf(hs) ensures Answers(hs, r) {
        if r in RepliesOf(init) { assert Answers(init, r); } else { assert r in ReplyTo(|hs| - 1, last); }
      }
    }
  }

  lemma {:induction false} RepliesInOrder(hs: seq<Handled>)
    ensures forall j, k :: 0 <= j < k < |RepliesOf(hs)| ==> RepliesOf(hs)[j].request < RepliesOf(hs)[k].request
    decreases |hs|
  {
    if hs == [] {
    } else {
      var init := hs[..|hs| - 1];
      RepliesInOrder(init);
      RepliesAnswer(init);
      forall j | 0 <= j < |RepliesOf(init)| ensures RepliesOf(init)[j].request < |hs| - 1 {
        assert Answers(init, RepliesOf(init)[j]);
      }
    }
  }

  lemma {:induction false} EveryVerdictIsReplied(hs: seq<Handled>, i: nat)
    requires i < |hs| && hs[i].verdict.Some?
    ensures Reply(i, hs[i].verdict.value) in RepliesOf(hs)
    decreases |hs|
  {
    var init := hs[..|hs| - 1];
    if i == |hs| - 1 {
      assert Reply(i, hs[i].verdict.value) in ReplyTo(i, hs[i]);
    } else {
      assert init[i] == hs[i];
      EveryVerdictIsReplied(init, i);
    }
  }

  ghost predicate OneReplyEach(hs: seq<Handled>, replies: seq<Reply>) {
    && (forall j, k :: 0 <= j < k < |replies| ==> replies[j].request < replies[k].request)
    && (forall k :: 0 <= k < |replies| ==> replies[k].request < |hs| && !Silent(hs[replies[k].request].req))
    && (forall i :: 0 <= i < |hs| && !Silent(hs[i].req) ==>
          hs[i].verdict.Some? && Reply(i, hs[i].verdict.value) in replies)
  }

  lemma RepliesAreOneEach(handlers: set<string>, hs: seq<Handled>)
    requires RightVerdicts(handlers, hs)
    ensures OneReplyEach(hs, RepliesOf(hs))
  {
    RepliesInOrder(hs);
    RepliesAnswer(hs);
    forall i | 0 <= i < |hs| ensures hs[i].verdict.None? <==> Silent(hs[i].req) {
      assert RightVerdict(handlers, hs[..i], hs[i]);
    }
    forall k | 0 <= k < |RepliesOf(hs)| ensures Answers(hs, RepliesOf(hs)[k]) {
      assert RepliesOf(hs)[k] in RepliesOf(hs);
    }
    forall i | 0 <= i < |hs| && hs[i].verdict.Some? ensures Reply(i, hs[i].verdict.value) in RepliesOf(hs) {
      EveryVerdictIsReplied(hs, i);
    }
  }

  /** Every request taken from the stream leads to exactly one reply, in request order,
      except signals and keep-alives that want none; and the answers are the right ones. */
  lemma RepliesAccountForRequests(handlers: set<string>, inputs: seq<Input>)
    ensures var s := RunAll(handlers, inputs);
            && Requests(s.history) == Taken(inputs)
            && RightVerdicts(handlers, s.history)
            && OneReplyEach(s.history, s.replies)
  {
    RunKeepsInv(handlers, INITIAL, inputs);
    HistoryIsTaken(handlers, INITIAL, inputs);
    assert Requests(INITIAL.history) + Taken(inputs) == Taken(inputs);
    RepliesAreOneEach(handlers, RunAll(handlers, inputs).history);
  }

  /** At most one handler is started, and every field that set-up requests fill is what the
      accepted requests say. */
  lemma SetUpFollowsHistory(handlers: set<string>, inputs: seq<Input>)
    ensures var s := RunAll(handlers, inputs);
            && |s.setUp.starts| <= 1 && s.setUp.starts == StartsOf(s.history)
            && s.setUp.handled == Started(s.history)
            && s.setUp.env == EnvOf(s.history)
            && s.setUp.x11 == X11Of(s.history)
            && s.setUp.rawCmd == CommandOf(s.history) && (!s.setUp.handled ==> s.setUp.rawCmd == "")
            && s.setUp.subsystem == SubsystemOf(s.history)
  {
    RunKeepsInv(handlers, INITIAL, inputs);
  }

  /** The windows sent are the initial one and every parsed change, in order; between requests
      the PTY shows the last one sent; the channel is closed once, at the end. */
  lemma WindowStream(handlers: set<string>, inputs: seq<Input>)
    ensures var s := RunAll(handlers, inputs);
            && s.setUp.windows == WindowsOf(s.history)
            && s.setUp.pty.Some? == PtyOf(s.history).Some?
            && (s.setUp.pty.Some? ==>
                  && |s.setUp.windows| >= 1 && s.setUp.windows[0] == PtyOf(s.history).value.window
                  && s.setUp.pty.value.window == s.setUp.windows[|s.setUp.windows| - 1])
            && s.winchCloses == (if s.ended && s.setUp.pty.Some? then 1 else 0)
  {
    RunKeepsInv(handlers, INITIAL, inputs);
  }

  lemma PtyThenChange(handlers: set<string>, p: Pty, w: Window)
    ensures var s := RunAll(handlers, [Incoming(PtyReq(Some(p)), None), Incoming(WindowChange(Some(w)), None)]);
            s.setUp.windows == [p.window, w] && s.setUp.pty == Some(p.(window := w))
  {
    var a, b := Incoming(PtyReq(Some(p)), None), Incoming(WindowChange(Some(w)), None);
    assert [a, b][1..] == [b] && [b][1..] == [];
    var s1 := Step(handlers, INITIAL, a);
    assert RunFrom(handlers, s1, [b]) == Step(handlers, s1, b);
  }

  /** End to end: an encoded pty-req followed by encoded window changes puts exactly the
      client's windows on the channel, bytes after each window notwithstanding. */
  lemma ClientWindowsArrive(handlers: set<string>, term: Bytes, w: Window, ops: seq<Op>, tail: Bytes,
                            w2: Window, junk: Bytes)
    requires IsU32(|term|) && w.Encodable() && w2.Encodable() && ValidOps(ops) && EndsModes(tail)
    requires |EncodePty(term, w, 0, ops, tail)| < TWO_32
    ensures var s := RunAll(handlers, [Incoming(PtyRequest(EncodePty(term, w, 0, ops, tail)), None),
                                       Incoming(WindowChangeRequest(EncodeWindow(w2) + junk), None)]);
            s.setUp.windows == [w, w2] && s.setUp.pty == Some(Pty(term, w2, MapOf(ops)))
  {
    PtyRoundTrip(term, w, 0, ops, tail);
    WindowRoundTrip(w2, junk);
    assert PtyRequest(EncodePty(term, w, 0, ops, tail)) == PtyReq(Some(Pty(term, w, MapOf(ops))));
    assert WindowChangeRequest(EncodeWindow(w2) + junk) == WindowChange(Some(w2));
    PtyThenChange(handlers, Pty(term, w, MapOf(ops)), w2);
  }

  lemma X11Alone(handlers: set<string>, x: X11)
    ensures var s := RunAll(handlers, [Incoming(X11Req(Some(x)), None)]);
            s.setUp.x11 == Some(x) && s.replies == [Reply(0, true)] && |s.history| == 1
            && s.history[0] == Handled(X11Req(Some(x)), None, Some(true))
  {
    var a := Incoming(X11Req(Some(x)), None);
    assert [a][1..] == [];
    assert RunFrom(handlers, INITIAL, [a]) == Step(handlers, INITIAL, a);
  }

  /** End to end: an encoded x11-req puts the client's protocol, data and screen into a fresh session. */
  lemma ClientX11Arrives(handlers: set<string>, flag: byte, protocol: Bytes, data: Bytes, screen: nat, tail: Bytes)
    requires IsU32(|protocol|) && IsU32(|data|) && IsU32(screen)
    requires |EncodeX11(flag, protocol, data, screen, tail)| < TWO_32
    ensures var s := RunAll(handlers, [Incoming(X11Request(EncodeX11(flag, protocol, data, screen, tail)), None)]);
            s.setUp.x11 == Some(X11(flag == 1, protocol, data, screen)) && s.replies == [Reply(0, true)]
  {
    X11RoundTrip(flag, protocol, data, screen, tail);
    X11Alone(handlers, X11(flag == 1, protocol, data, screen));
  }

  /** Over all interleavings of Exit calls and the implicit Exit(0), the one exit-status sent
      carries the first caller's code as a 32-bit number. */
  lemma OneExitStatus(handlers: set<string>, inputs: seq<Input>)
    ensures var e := RunAll(handlers, inputs).ending;
            && e.statuses == (if e.exitCalls == [] then [] else [e.exitCalls[0] % TWO_32])
            && e.channelCloses <= |e.statuses| <= 1
  {
    RunKeepsInv(handlers, INITIAL, inputs);
  }

  lemma {:induction false} RunAppend(handlers: set<string>, s: State, a: seq<Input>, b: seq<Input>)
    ensures RunFrom(handlers, s, a + b) == RunFrom(handlers, RunFrom(handlers, s, a), b)
    decreases |a|
  {
    if a == [] {
      assert a + b == b;
    } else {
      assert (a + b)[1..] == a[1..] + b;
      RunAppend(handlers, Step(handlers, s, a[0]), a[1..], b);
    }
  }

  lemma {:induction false} ExitCallsGrow(handlers: set<string>, s: State, inputs: seq<Input>)
    ensures s.ending.exitCalls <= RunFrom(handlers, s, inputs).ending.exitCalls
    decreases |inputs|
  {
    if inputs == [] {
    } else {
      ExitCallsGrow(handlers, Step(handlers, s, inputs[0]), inputs[1..]);
    }
  }

  /** A handler's Exit that comes first decides the status, whatever comes later. */
  lemma FirstExitWins(handlers: set<string>, before: seq<Input>, code: int, sent: bool, later: seq<Input>)
    requires RunAll(handlers, before).ending.exitCalls == []
    ensures RunAll(handlers, before + [ExitCall(code, sent)] + later).ending.statuses == [code % TWO_32]
  {
    var mid := before + [ExitCall(code, sent)];
    RunAppend(handlers, INITIAL, before, [ExitCall(code, sent)]);
    RunAppend(handlers, INITIAL, mid, later);
    ExitCallsGrow(handlers, RunAll(handlers, mid), later);
    OneExitStatus(handlers, mid + later);
  }

  /** The calls of Exit that the inputs make, each with whether SendRequest succeeds: the handler's
      own, and one with code 0 for its return. */
  function ExitsOf(handlers: set<string>, s: State, inputs: seq<Input>): seq<(int, bool)>
    decreases |inputs|
  {
    if inputs == [] then []
    else
      var first := match inputs[0]
        case ExitCall(code, sent) => [(code, sent)]
        case HandlerReturns(sent) => if s.running then [(0, sent)] else []
        case _ => [];
      first + ExitsOf(handlers, Step(handlers, s, inputs[0]), inputs[1..])
  }

  function CodesOf(exits: seq<(int, bool)>): seq<int> {
    seq(|exits|, i requires 0 <= i < |exits| => exits[i].0)
  }

  /** What a sequence of Exit calls leaves behind: the first sends its code as a 32-bit number,
      and closes the channel if that succeeds; the others do nothing. */
  predicate EndedBy(e: Ending, exits: seq<(int, bool)>) {
    && e.exited == (exits != []) && e.exitCalls == CodesOf(exits)
    && e.statuses == (if exits == [] then [] else [exits[0].0 % TWO_32])
    && e.channelCloses == (if exits != [] && exits[0].1 then 1 else 0)
  }

  lemma ExitEnds(e: Ending, exits: seq<(int, bool)>, code: int, sent: bool)
    requires EndedBy(e, exits)
    ensures EndedBy(DoExit(e, code, sent), exits + [(code, sent)])
  {
    assert CodesOf(exits + [(code, sent)]) == CodesOf(exits) + [code];
  }

  lemma {:induction false} EndingFrom(handlers: set<string>, s: State, inputs: seq<Input>, exits: seq<(int, bool)>)
    requires EndedBy(s.ending, exits)
    ensures EndedBy(RunFrom(handlers, s, inputs).ending, exits + ExitsOf(handlers, s, inputs))
    decreases |inputs|
  {
    if inputs == [] {
      assert exits + [] == exits;
    } else {
      var t, more := Step(handlers, s, inputs[0]), ExitsOf(handlers, Step(handlers, s, inputs[0]), inputs[1..]);
      match inputs[0] {
        case ExitCall(code, sent) =>
          ExitEnds(s.ending, exits, code, sent);
          EndingFrom(handlers, t, inputs[1..], exits + [(code, sent)]);
          Shlex.Regroup(exits, [(code, sent)], more);
        case HandlerReturns(sent) =>
          ExitEnds(s.ending, exits, 0, sent);
          EndingFrom(handlers, t, inputs[1..], if s.running then exits + [(0, sent)] else exits);
          Shlex.Regroup(exits, [(0, sent)], more);
          assert [] + more == more;
        case _ =>
          EndingFrom(handlers, t, inputs[1..], exits);
          assert [] + more == more;
      }
    }
  }

  /** Over all interleavings the exit status and the close of the channel are those of the first
      Exit call that the inputs make, the implicit Exit(0) of the handler's return included. */
  lemma EndingFollowsInputs(handlers: set<string>, inputs: seq<Input>)
    ensures EndedBy(RunAll(handlers, inputs).ending, ExitsOf(handlers, INITIAL, inputs))
  {
    EndingFrom(handlers, INITIAL, inputs, []);
    assert [] + ExitsOf(handlers, INITIAL, inputs) == ExitsOf(handlers, INITIAL, inputs);
  }

  /** A handler that was started returns among the inputs. */
  predicate HasReturned(handlers: set<string>, s: State, inputs: seq<Input>)
    decreases |inputs|
  {
    inputs != []
    && ((inputs[0].HandlerReturns? && s.setUp.handled)
        || HasReturned(handlers, Step(handlers, s, inputs[0]), inputs[1..]))
  }

  lemma StepRuns(handlers: set<string>, s: State, i: Input)
    requires s.running ==> s.setUp.handled
    ensures var t := Step(handlers, s, i);
            && (t.running ==> t.setUp.handled) && (s.setUp.handled ==> t.setUp.handled)
            && (t.running <==> (s.running && !i.HandlerReturns?) || (t.setUp.handled && !s.setUp.handled))
  {
  }

  lemma {:induction false} RunningFrom(handlers: set<string>, s: State, inputs: seq<Input>)
    requires s.running ==> s.setUp.handled
    ensures var t := RunFrom(handlers, s, inputs);
            && (s.setUp.handled ==> t.setUp.handled)
            && (t.running <==>
                  t.setUp.handled && (s.setUp.handled ==> s.running) && !HasReturned(handlers, s, inputs))
    decreases |inputs|
  {
    if inputs == [] {
    } else {
      StepRuns(handlers, s, inputs[0]);
      RunningFrom(handlers, Step(handlers, s, inputs[0]), inputs[1..]);
    }
  }

  /** A handler is running exactly when one was started and none has returned. */
  lemma RunningExactlyWhen(handlers: set<string>, inputs: seq<Input>)
    ensures var s := RunAll(handlers, inputs);
            s.running <==> Started(s.history) && !HasReturned(handlers, INITIAL, inputs)
  {
    RunningFrom(handlers, INITIAL, inputs);
    SetUpFollowsHistory(handlers, inputs);
  }

  /** A handler that returns without anyone having called Exit ends the session with status 0,
      whatever comes later. */
  lemma ReturnMeansZero(handlers: set<string>, before: seq<Input>, sent: bool, later: seq<Input>)
    requires RunAll(handlers, before).running && RunAll(handlers, before).ending.exitCalls == []
    ensures RunAll(handlers, before + [HandlerReturns(sent)] + later).ending.statuses == [0]
  {
    var mid := before + [HandlerReturns(sent)];
    RunAppend(handlers, INITIAL, before, [HandlerReturns(sent)]);
    RunAppend(handlers, INITIAL, mid, later);
    ExitCallsGrow(handlers, RunAll(handlers, mid), later);
    OneExitStatus(handlers, mid + later);
  }

  // ---------------------------------------------------------------- break requests

  /** What the last call of Break left registered. */
  function LastBreak(inputs: seq<Input>, listening: bool): bool
    decreases |inputs|
  {
    if inputs == [] then listening
    else LastBreak(inputs[1..], if inputs[0].RegisterBreak? then inputs[0].on else listening)
  }

  lemma {:induction false} ListeningFrom(handlers: set<string>, s: State, inputs: seq<Input>)
    ensures RunFrom(handlers, s, inputs).listening == LastBreak(inputs, s.listening)
    decreases |inputs|
  {
    if inputs == [] {
    } else {
      ListeningFrom(handlers, Step(handlers, s, inputs[0]), inputs[1..]);
    }
  }

  /** A break request is answered yes exactly when the last call of Break registered a channel. */
  lemma WhenABreakIsTaken(handlers: set<string>, before: seq<Input>, callback: Option<bool>)
    requires !RunAll(handlers, before).ended
    ensures var s := RunAll(handlers, before);
            RunAll(handlers, before + [Incoming(BreakReq, callback)]).replies
            == s.replies + [Reply(|s.history|, LastBreak(before, false))]
  {
    RunAppend(handlers, INITIAL, before, [Incoming(BreakReq, callback)]);
    ListeningFrom(handlers, INITIAL, before);
    var s := RunAll(handlers, before);
    assert [Incoming(BreakReq, callback)][1..] == [];
    assert RunFrom(handlers, s, [Incoming(BreakReq, callback)]) == Step(handlers, s, Incoming(BreakReq, callback));
  }

  /** What a started session can no longer change. The window inside the PTY may. */
  predicate SameSetUp(a: SetUp, b: SetUp) {
    && a.handled == b.handled && a.starts == b.starts && a.env == b.env && a.rawCmd == b.rawCmd
    && a.subsystem == b.subsystem && a.x11 == b.x11 && a.pty.Some? == b.pty.Some?
    && (a.pty.Some? ==> a.pty.value.term == b.pty.value.term && a.pty.value.modes == b.pty.value.modes)
  }

  /** Once the handler is started, set-up is frozen. */
  lemma {:induction false} StartFreezesSetUp(handlers: set<string>, s: State, inputs: seq<Input>)
    requires s.setUp.handled
    ensures SameSetUp(s.setUp, RunFrom(handlers, s, inputs).setUp)
    decreases |inputs|
  {
    if inputs == [] {
    } else {
      StartFreezesSetUp(handlers, Step(handlers, s, inputs[0]), inputs[1..]);
    }
  }

  /** After the stream has ended nothing is sent on the window channel, and it is not closed again. */
  lemma {:induction false} NothingAfterTheEnd(handlers: set<string>, s: State, inputs: seq<Input>)
    requires s.ended
    ensures var t := RunFrom(handlers, s, inputs);
            t.ended && t.setUp == s.setUp && t.winchCloses == s.winchCloses && t.replies == s.replies
    decreases |inputs|
  {
    if inputs == [] {
    } else {
      NothingAfterTheEnd(handlers, Step(handlers, s, inputs[0]), inputs[1..]);
    }
  }

  // ---------------------------------------------------------------- X11 requests without a callback

  /** In every run an x11-req is accepted exactly when it parses, none was accepted before, no
      handler was started before, and the callback is not set or says yes. */
  lemma WhenAnX11RequestIsAccepted(handlers: set<string>, inputs: seq<Input>, i: nat)
    requires var hs := RunAll(handlers, inputs).history; i < |hs| && hs[i].req.X11Req?
    ensures var hs := RunAll(handlers, inputs).history;
            Accepted(hs[i]) <==>
              && hs[i].req.parsedX11.Some? && X11Of(hs[..i]).None? && !Started(hs[..i])
              && (hs[i].callback.None? || hs[i].callback.value)
  {
    RunKeepsInv(handlers, INITIAL, inputs);
    assert RightVerdict(handlers, RunAll(handlers, inputs).history[..i], RunAll(handlers, inputs).history[i]);
  }

  /** The rule that the documentation gives: without a callback an x11-req is denied. */
  predicate DeniedWithoutCallback(h: Handled) {
    h.req.X11Req? && h.callback.None? ==> !Accepted(h)
  }

  /** It is kept exactly for the requests that have a callback or are refused anyway. */
  lemma WhenTheX11RuleIsKept(handlers: set<string>, inputs: seq<Input>, i: nat)
    requires var hs := RunAll(handlers, inputs).history; i < |hs| && hs[i].req.X11Req?
    ensures var hs := RunAll(handlers, inputs).history;
            DeniedWithoutCallback(hs[i]) <==>
              hs[i].callback.Some? || hs[i].req.parsedX11.None? || X11Of(hs[..i]).Some? || Started(hs[..i])
  {
    WhenAnX11RequestIsAccepted(handlers, inputs, i);
  }

  /** A first x11-req that parses is accepted although no callback is set. */
  lemma X11WithoutCallbackIsAccepted(x: X11)
    ensures var s := RunAll({}, [Incoming(X11Req(Some(x)), None)]);
            s.replies == [Reply(0, true)] && s.setUp.x11 == Some(x)
            && |s.history| == 1 && !DeniedWithoutCallback(s.history[0])
  {
    X11Alone({}, x);
  }

  // ---------------------------------------------------------------- the leftover subsystem name

  /** A subsystem request that was refused leaves its name in the session, so a session that
      was later started by a command can report a subsystem. */
  lemma RefusedSubsystemLingers()
    ensures var s := RunAll({}, [Incoming(Subsystem("sftp"), Some(false)), Incoming(Run(false, ""), None)]);
            s.setUp.starts == [ByCommand] && s.setUp.subsystem == "sftp"
  {
    var a, b := Incoming(Subsystem("sftp"), Some(false)), Incoming(Run(false, ""), None);
    assert [a, b][1..] == [b] && [b][1..] == [];
    var s1 := Step({}, INITIAL, a);
    assert RunFrom({}, s1, [b]) == Step({}, s1, b);
  }

  /** Entry `i` is the last subsystem request before any start. */
  predicate LastName(hs: seq<Handled>, i: nat) {
    && i < |hs| && hs[i].req.Subsystem? && !Started(hs[..i])
    && forall j :: i < j < |hs| && hs[j].req.Subsystem? ==> Started(hs[..j])
  }

  /** Another entry that is no subsystem request before the start leaves the last name where it is. */
  lemma LastNameStays(hs: seq<Handled>, h: Handled, i: nat)
    requires !(h.req.Subsystem? && !Started(hs))
    ensures LastName(hs + [h], i) <==> LastName(hs, i)
  {
    var longer := hs + [h];
    assert longer[|hs|] == h && longer[..|hs|] == hs;
    forall j | 0 <= j <= |hs| ensures longer[..j] == hs[..j] { }
    assert forall j :: 0 <= j < |hs| ==> longer[j] == hs[j];
    if LastName(longer, i) {
      forall j | i < j < |hs| && hs[j].req.Subsystem? ensures Started(hs[..j]) { assert longer[j].req.Subsystem?; }
    }
  }

  /** A subsystem request before the start is the last name. */
  lemma LastNameMoves(hs: seq<Handled>, h: Handled, i: nat)
    requires h.req.Subsystem? && !Started(hs)
    ensures LastName(hs + [h], i) <==> i == |hs|
  {
    var longer := hs + [h];
    assert longer[|hs|] == h && longer[..|hs|] == hs;
  }

  lemma {:induction false} SubsystemMeans(hs: seq<Handled>)
    ensures SubsystemOf(hs) != "" <==> exists i: nat :: LastName(hs, i) && hs[i].req.name != ""
    decreases |hs|
  {
    if hs == [] {
    } else {
      var init, h := hs[..|hs| - 1], hs[|hs| - 1];
      assert hs == init + [h];
      SubsystemMeans(init);
      if h.req.Subsystem? && !Started(init) {
        forall i: nat ensures LastName(hs, i) <==> i == |init| { LastNameMoves(init, h, i); }
      } else {
        forall i: nat ensures LastName(hs, i) <==> LastName(init, i) { LastNameStays(init, h, i); }
        assert forall i: nat :: LastName(init, i) ==> hs[i] == init[i];
      }
    }
  }

  /** A session reports a subsystem name exactly when the last subsystem request that it
      received before a handler was started carried one, accepted or not. */
  lemma WhenASubsystemIsReported(handlers: set<string>, inputs: seq<Input>)
    ensures var s := RunAll(handlers, inputs);
            s.setUp.subsystem != "" <==> exists i: nat :: LastName(s.history, i) && s.history[i].req.name != ""
  {
    SetUpFollowsHistory(handlers, inputs);
    SubsystemMeans(RunAll(handlers, inputs).history);
  }

  /** A session that a subsystem request started bears that request's name. */
  predicate StartedIsNamed(u: SetUp) {
    && |u.starts| == (if u.handled then 1 else 0)
    && (u.handled && u.starts[0].BySubsystem? ==> u.subsystem == u.starts[0].name)
  }

  lemma StepKeepsNamed(handlers: set<string>, s: State, i: Input)
    requires StartedIsNamed(s.setUp)
    ensures StartedIsNamed(Step(handlers, s, i).setUp)
  {
  }

  lemma {:induction false} RunKeepsNamed(handlers: set<string>, s: State, inputs: seq<Input>)
    requires StartedIsNamed(s.setUp)
    ensures StartedIsNamed(RunFrom(handlers, s, inputs).setUp)
    decreases |inputs|
  {
    if inputs == [] {
    } else {
      StepKeepsNamed(handlers, s, inputs[0]);
      RunKeepsNamed(handlers, Step(handlers, s, inputs[0]), inputs[1..]);
    }
  }

  /** The subsystem reported is the one that was started, and none if a command was. */
  predicate ReportsTheStarted(u: SetUp)
    requires |u.starts| == 1
  {
    u.subsystem == if u.starts[0].BySubsystem? then u.starts[0].name else ""
  }

  /** That holds of a started session exactly when a subsystem request started it, or the last
      subsystem request before the start, if there was one, carried no name. */
  lemma WhenTheStartedIsReported(handlers: set<string>, inputs: seq<Input>)
    requires RunAll(handlers, inputs).setUp.handled
    ensures var s := RunAll(handlers, inputs);
            && |s.setUp.starts| == 1
            && (ReportsTheStarted(s.setUp) <==>
                  || s.setUp.starts[0].BySubsystem?
                  || !exists i: nat :: LastName(s.history, i) && s.history[i].req.name != "")
  {
    RunKeepsNamed(handlers, INITIAL, inputs);
    WhenASubsystemIsReported(handlers, inputs);
  }

  // ---------------------------------------------------------------- the session object

  function Stream(reqs: seq<(Request, Option<bool>)>): seq<Input> {
    seq(|reqs|, i requires 0 <= i < |reqs| => Incoming(reqs[i].0, reqs[i].1))
  }

  lemma RunStream(handlers: set<string>, s: State, reqs: seq<(Request, Option<bool>)>)
    requires !s.ended
    ensures RunFrom(handlers, s, Stream(reqs) + [StreamEnds])
         == if reqs == [] then EndLoop(s)
            else RunFrom(handlers, Handle(handlers, s, reqs[0].0, reqs[0].1), Stream(reqs[1..]) + [StreamEnds])
  {
    var inputs := Stream(reqs) + [StreamEnds];
    if reqs == [] {
      assert inputs == [StreamEnds] && inputs[1..] == [];
    } else {
      assert inputs[0] == Incoming(reqs[0].0, reqs[0].1) && inputs[1..] == Stream(reqs[1..]) + [StreamEnds];
    }
  }

  /** The session. `handlers` are the names with a subsystem handler. The record fields
      (history, replies, starts, windows, winchCloses, exitCalls, statuses, channelCloses,
      written) hold what went in and out. */
  class Session {
    const handlers: set<string>
    var handled: bool
    var running: bool
    var exited: bool
    var listening: bool
    var ended: bool
    var pty: Option<Pty>
    var x11: Option<X11>
    var env: seq<string>
    var rawCmd: string
    var subsystem: string
    var disablePtyEmulation: bool
    var history: seq<Handled>
    var replies: seq<Reply>
    var starts: seq<Starter>
    var windows: seq<Window>
    var winchCloses: nat
    var exitCalls: seq<int>
    var statuses: seq<nat>
    var channelCloses: nat
    var written: Bytes

    ghost function SetUpView(): SetUp
      reads this
    {
      SetUp(handled, pty, x11, env, rawCmd, subsystem, starts, windows)
    }

    ghost function View(): State
      reads this
    {
      State(SetUpView(),
            Ending(exited, exitCalls, statuses, channelCloses),
            running, listening, ended, winchCloses, history, replies)
    }

    constructor (handlers: set<string>)
      ensures View() == INITIAL && this.handlers == handlers && !disablePtyEmulation && written == []
    {
      this.handlers := handlers;
      handled, running, exited, listening, ended := false, false, false, false, false;
      pty, x11, env, rawCmd, subsystem := None, None, [], "", "";
      disablePtyEmulation := false;
      history, replies, starts, windows, winchCloses := [], [], [], [], 0;
      exitCalls, statuses, channelCloses, written := [], [], 0, [];
    }

    /** The parts of the state that handling a request can change. */
    ghost predicate Became(s: State)
      reads this
    {
      SetUpView() == s.setUp && running == s.running && history == s.history && replies == s.replies
    }

    method Answer(r: Request, callback: Option<bool>, verdict: Option<bool>)
      modifies this`history, this`replies
      ensures history == old(history) + [Handled(r, callback, verdict)]
      ensures replies == old(replies) + (if verdict.Some? then [Reply(|old(history)|, verdict.value)] else [])
    {
      if verdict.Some? { replies := replies + [Reply(|history|, verdict.value)]; }
      history := history + [Handled(r, callback, verdict)];
    }

    /** Accept `r` and start the handler. */
    method Begin(r: Request, callback: Option<bool>, starter: Starter)
      modifies this`handled, this`running, this`starts, this`history, this`replies
      ensures handled && running && starts == old(starts) + [starter]
      ensures history == old(history) + [Handled(r, callback, Some(true))]
      ensures replies == old(replies) + [Reply(|old(history)|, true)]
    {
      handled := true;
      Answer(r, callback, Some(true));
      starts, running := starts + [starter], true;
    }

    /** "shell" and "exec" */
    method HandleRun(exec: bool, value: string, callback: Option<bool>)
      modifies this`handled, this`rawCmd, this`starts, this`running, this`history, this`replies
      ensures Became(Handle(handlers, old(View()), Run(exec, value), callback))
    {
      var r := Run(exec, value);
      if handled { Answer(r, callback, Some(false)); return; }
      rawCmd := value;
      if !Allows(callback) {
        rawCmd := "";
        Answer(r, callback, Some(false));
        return;
      }
      Begin(r, callback, ByCommand);
    }

    method HandleSubsystem(name: string, callback: Option<bool>)
      modifies this`handled, this`rawCmd, this`subsystem, this`starts, this`running, this`history, this`replies
      ensures Became(Handle(handlers, old(View()), Subsystem(name), callback))
    {
      var r := Subsystem(name);
      if handled { Answer(r, callback, Some(false)); return; }
      subsystem := name;
      if !Allows(callback) {
        rawCmd := "";
        Answer(r, callback, Some(false));
        return;
      }
      if name !in handlers && "default" !in handlers { Answer(r, callback, Some(false)); return; }
      Begin(r, callback, BySubsystem(name));
    }

    method HandlePty(parsed: Option<Pty>, callback: Option<bool>)
      modifies this`pty, this`windows, this`history, this`replies
      ensures Became(Handle(handlers, old(View()), PtyReq(parsed), callback))
    {
      var r := PtyReq(parsed);
      if handled || pty.Some? { Answer(r, callback, Some(false)); return; }
      if parsed.None? { Answer(r, callback, Some(false)); return; }
      if !Allows(callback) { Answer(r, callback, Some(false)); return; }
      pty := parsed;
      windows := windows + [parsed.value.window];
      Answer(r, callback, Some(true));
    }

    method HandleX11(parsed: Option<X11>, callback: Option<bool>)
      modifies this`x11, this`history, this`replies
      ensures Became(Handle(handlers, old(View()), X11Req(parsed), callback))
    {
      var r := X11Req(parsed);
      if handled || x11.Some? { Answer(r, callback, Some(false)); return; }
      if parsed.None? { Answer(r, callback, Some(false)); return; }
      if !Allows(callback) { Answer(r, callback, Some(false)); return; }
      x11 := parsed;
      Answer(r, callback, Some(true));
    }

    method HandleWindowChange(parsed: Option<Window>, callback: Option<bool>)
      modifies this`pty, this`windows, this`history, this`replies
      ensures Became(Handle(handlers, old(View()), WindowChange(parsed), callback))
    {
      var r := WindowChange(parsed);
      if pty.None? { Answer(r, callback, Some(false)); return; }
      if parsed.Some? {
        pty := Some(pty.value.(window := parsed.value));
        windows := windows + [parsed.value];
      }
      Answer(r, callback, Some(parsed.Some?));
    }

    method HandleEnv(key: string, value: string, callback: Option<bool>)
      modifies this`env, this`history, this`replies
      ensures Became(Handle(handlers, old(View()), Env(key, value), callback))
    {
      var r := Env(key, value);
      if handled { Answer(r, callback, Some(false)); return; }
      env := env + [key + "=" + value];
      Answer(r, callback, Some(true));
    }

    /** The requests that change nothing in the session. */
    method HandleOther(r: Request, callback: Option<bool>)
      requires PassesThrough(r)
      modifies this`history, this`replies
      ensures Became(Handle(handlers, old(View()), r, callback))
    {
      var verdict: Option<bool>;
      PassingChangesNothing(View().setUp, r, callback);
      match r {
        case Signal(_) => verdict := None;
        case AgentReq => verdict := Some(true);
        case KeepAlive(wantReply) => verdict := if wantReply then Some(true) else None;
        case BreakReq => verdict := Some(listening);
        case Unknown => verdict := Some(false);
      }
      Answer(r, callback, verdict);
    }

    method Dispatch(r: Request, callback: Option<bool>)
      modifies this`handled, this`rawCmd, this`subsystem, this`starts, this`running, this`pty, this`x11,
               this`windows, this`env, this`history, this`replies
      ensures Became(Handle(handlers, old(View()), r, callback))
    {
      match r
      case Run(exec, value) => HandleRun(exec, value, callback);
      case Subsystem(name) => HandleSubsystem(name, callback);
      case Env(key, value) => HandleEnv(key, value, callback);
      case PtyReq(parsed) => HandlePty(parsed, callback);
      case X11Req(parsed) => HandleX11(parsed, callback);
      case WindowChange(parsed) => HandleWindowChange(parsed, callback);
      case _ => HandleOther(r, callback);
    }

    /** One turn of the request loop. */
    method HandleRequest(r: Request, callback: Option<bool>)
      modifies this`handled, this`rawCmd, this`subsystem, this`starts, this`running, this`pty, this`x11,
               this`windows, this`env, this`history, this`replies
      ensures View() == Handle(handlers, old(View()), r, callback)
    {
      Dispatch(r, callback);
    }

    /** The loop over a stream that ends, with the guarding callbacks' answers beside the requests. */
    method HandleRequests(reqs: seq<(Request, Option<bool>)>)
      requires !ended
      modifies this
      ensures View() == RunFrom(handlers, old(View()), Stream(reqs) + [StreamEnds])
    {
      for i := 0 to |reqs|
        invariant !ended
        invariant RunFrom(handlers, View(), Stream(reqs[i..]) + [StreamEnds])
               == RunFrom(handlers, old(View()), Stream(reqs) + [StreamEnds])
      {
        RunStream(handlers, View(), reqs[i..]);
        assert reqs[i..][1..] == reqs[i + 1..];
        HandleRequest(reqs[i].0, reqs[i].1);
      }
      RunStream(handlers, View(), []);
      assert reqs[|reqs|..] == [];
      if pty.Some? { winchCloses := winchCloses + 1; }
      ended := true;
    }

    /** `sent` tells whether SendRequest succeeds and `closes` whether the channel's Close does. */
    method Exit(code: int, sent: bool, closes: bool) returns (ok: bool)
      modifies this
      ensures View() == old(View()).(ending := DoExit(old(View()).ending, code, sent))
      ensures ok <==> !old(exited) && sent && closes
    {
      exitCalls := exitCalls + [code];
      if exited { return false; }
      exited := true;
      statuses := statuses + [code % TWO_32];
      if !sent { return false; }
      channelCloses := channelCloses + 1;
      return closes;
    }

    method Break(on: bool)
      modifies this
      ensures View() == old(View()).(listening := on)
    {
      listening := on;
    }

    /** `take` bounds how many bytes the channel accepts. A caller whose bytes are all
        accepted is told its own length, however many bytes were added on the way. */
    method Write(p: Bytes, take: nat) returns (n: nat)
      modifies this`written
      ensures var out := if pty.Some? && !disablePtyEmulation then Newlines.Normalize(p) else p;
              && var k := if take < |out| then take else |out|;
                 && written == old(written) + out[..k]
                 && n == Newlines.Reported(p, k)
                 && (take >= |out| ==> n == |p|)
    {
      var out := p;
      if pty.Some? && !disablePtyEmulation {
        var m := |p|;
        out := Newlines.ReplaceAll(p, [Newlines.LF], [Newlines.CR, Newlines.LF]);
        out := Newlines.ReplaceAll(out, [Newlines.CR, Newlines.CR, Newlines.LF], [Newlines.CR, Newlines.LF]);
        n := if take < |out| then take else |out|;
        written := written + out[..n];
        if n > m { n := m; }
        Newlines.NormalizeLength(p);
        return;
      }
      n := if take < |out| then take else |out|;
      written := written + out[..n];
    }

    method Command() returns (cmd: seq<string>)
      ensures cmd == Shlex.Split(rawCmd)
    {
      cmd := Shlex.ShlexSplit(rawCmd);
    }
  }
}
