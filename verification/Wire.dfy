/** The request payload parsers of util.go (RFC 4254, sections 6.2, 6.3.1, 6.7 and 8)
    and the client-side encoders they invert. A Go result (value, rest, ok) becomes
    an Option of the value and the rest. */
module Wire {
  import opened Basics

  datatype Parsed<+T> = Parsed(value: T, rest: Bytes)

  predicate IsU32(n: nat) {
    n < TWO_32
  }

  // ---------------------------------------------------------------- primitives

  /** The `k` low base-256 digits of `n`, most significant first. */
  function BigEndian(n: nat, k: nat): (bs: Bytes)
    ensures |bs| == k
  {
    if k == 0 then [] else BigEndian(n / 256, k - 1) + [(n % 256) as byte]
  }

  function Value(bs: Bytes): nat {
    if bs == [] then 0 else Value(bs[..|bs| - 1]) * 256 + bs[|bs| - 1] as nat
  }

  function Pow256(k: nat): nat {
    if k == 0 then 1 else 256 * Pow256(k - 1)
  }

  lemma {:induction false} ValueOfBigEndian(n: nat, k: nat)
    requires n < Pow256(k)
    ensures Value(BigEndian(n, k)) == n
  {
    if k == 0 {
    } else {
      ValueOfBigEndian(n / 256, k - 1);
      var bs := BigEndian(n, k);
      assert bs[..k - 1] == BigEndian(n / 256, k - 1);
    }
  }

  lemma {:induction false} BigEndianOfValue(bs: Bytes)
    ensures Value(bs) < Pow256(|bs|) && BigEndian(Value(bs), |bs|) == bs
    decreases |bs|
  {
    if bs == [] {
    } else {
      BigEndianOfValue(bs[..|bs| - 1]);
      assert bs == bs[..|bs| - 1] + [bs[|bs| - 1]];
    }
  }

  lemma FourDigits()
    ensures Pow256(4) == TWO_32
  {
    assert Pow256(2) == TWO_16;
    assert Pow256(3) == 256 * TWO_16;
  }

  function U32(n: nat): (bs: Bytes)
    requires IsU32(n)
    ensures |bs| == 4
  {
    BigEndian(n, 4)
  }

  function ParseU32(s: Bytes): Option<Parsed<nat>> {
    if |s| < 4 then None else Some(Parsed(Value(s[..4]), s[4..]))
  }

  lemma U32RoundTrip(n: nat, rest: Bytes)
    requires IsU32(n)
    ensures ParseU32(U32(n) + rest) == Some(Parsed(n, rest))
  {
    FourDigits();
    ValueOfBigEndian(n, 4);
    var s := U32(n) + rest;
    assert s[..4] == U32(n) && s[4..] == rest;
  }

  /** Whatever is read as a number is that number's encoding. */
  lemma U32Inverse(s: Bytes)
    requires |s| >= 4
    ensures var p := ParseU32(s).value; IsU32(p.value) && s == U32(p.value) + p.rest
  {
    FourDigits();
    BigEndianOfValue(s[..4]);
    assert s == s[..4] + s[4..];
  }

  function ParseBool(s: Bytes): Option<Parsed<bool>> {
    if |s| < 1 then None else Some(Parsed(s[0] == 1, s[1..]))
  }

  /** The length check compares the announced length with the rest's length cut to 32 bits. */
  function ParseString(s: Bytes): (r: Option<Parsed<Bytes>>)
    ensures r.Some? ==> |r.value.value| <= |s| - 4 && |r.value.rest| <= |s| - 4
  {
    match ParseU32(s)
    case None => None
    case Some(p) =>
      if |p.rest| % TWO_32 < p.value then None
      else Some(Parsed(p.rest[..p.value], p.rest[p.value..]))
  }

  function EncodeString(w: Bytes): Bytes
    requires IsU32(|w|)
  {
    U32(|w|) + w
  }

  /** A string is read back exactly when the 32-bit cut of the remaining length still covers
      it; every payload below 4 GiB qualifies. */
  lemma StringRoundTrip(w: Bytes, rest: Bytes)
    requires IsU32(|w|)
    ensures ParseString(EncodeString(w) + rest) == Some(Parsed(w, rest)) <==> (|w| + |rest|) % TWO_32 >= |w|
    ensures |w| + |rest| < TWO_32 ==> ParseString(EncodeString(w) + rest) == Some(Parsed(w, rest))
  {
    assert EncodeString(w) + rest == U32(|w|) + (w + rest);
    U32RoundTrip(|w|, w + rest);
    assert (w + rest)[..|w|] == w && (w + rest)[|w|..] == rest;
  }

  lemma StringInverse(s: Bytes)
    requires ParseString(s).Some?
    ensures var p := ParseString(s).value; IsU32(|p.value|) && s == EncodeString(p.value) + p.rest
  {
    U32Inverse(s);
    var p := ParseU32(s).value;
    assert p.rest == p.rest[..p.value] + p.rest[p.value..];
  }

  // ---------------------------------------------------------------- windows (section 6.7)

  datatype Window = Window(width: nat, height: nat, widthPixels: nat, heightPixels: nat) {
    predicate Encodable() {
      IsU32(width) && IsU32(height) && IsU32(widthPixels) && IsU32(heightPixels)
    }
  }

  function EncodeWindow(w: Window): (bs: Bytes)
    requires w.Encodable()
    ensures |bs| == 16
  {
    U32(w.width) + U32(w.height) + U32(w.widthPixels) + U32(w.heightPixels)
  }

  function ParseWindow(s: Bytes): Option<Parsed<Window>> {
    match ParseU32(s)
    case None => None
    case Some(cols) =>
      match ParseU32(cols.rest)
      case None => None
      case Some(rows) =>
        match ParseU32(rows.rest)
        case None => None
        case Some(wide) =>
          match ParseU32(wide.rest)
          case None => None
          case Some(high) => Some(Parsed(Window(cols.value, rows.value, wide.value, high.value), high.rest))
  }

  lemma WindowRoundTrip(w: Window, rest: Bytes)
    requires w.Encodable()
    ensures ParseWindow(EncodeWindow(w) + rest) == Some(Parsed(w, rest))
  {
    var r3 := U32(w.heightPixels) + rest;
    var r2 := U32(w.widthPixels) + r3;
    var r1 := U32(w.height) + r2;
    assert EncodeWindow(w) + rest == U32(w.width) + r1;
    U32RoundTrip(w.width, r1);
    U32RoundTrip(w.height, r2);
    U32RoundTrip(w.widthPixels, r3);
    U32RoundTrip(w.heightPixels, rest);
  }

  /** A window parses exactly when sixteen bytes are there, and then it is what they encode. */
  lemma WindowInverse(s: Bytes)
    ensures ParseWindow(s).Some? <==> |s| >= 16
    ensures ParseWindow(s).Some? ==>
              var p := ParseWindow(s).value; p.value.Encodable() && s == EncodeWindow(p.value) + p.rest
  {
    if |s| >= 16 {
      U32Inverse(s);
      U32Inverse(s[4..]);
      U32Inverse(s[4..][4..]);
      U32Inverse(s[4..][4..][4..]);
    }
  }

  // ---------------------------------------------------------------- terminal modes (section 8)

  type Modes = map<byte, nat>

  datatype Op = Op(code: byte, val: nat)

  /** Opcodes that carry an argument here: 1 to 160. */
  predicate HasArgument(code: byte) {
    1 <= code <= 160
  }

  predicate ValidOps(ops: seq<Op>) {
    forall i :: 0 <= i < |ops| ==> HasArgument(ops[i].code) && IsU32(ops[i].val)
  }

  function EncodeOps(ops: seq<Op>): Bytes
    requires ValidOps(ops)
  {
    if ops == [] then [] else [ops[0].code] + U32(ops[0].val) + EncodeOps(ops[1..])
  }

  /** Later entries for an opcode replace earlier ones. */
  function LastWins(ops: seq<Op>, before: Modes): Modes {
    if ops == [] then before else LastWins(ops[1..], before[ops[0].code := ops[0].val])
  }

  /** Where parsing may end well: nothing left, the terminator, or an opcode above 160. */
  predicate EndsModes(tail: Bytes) {
    tail == [] || !HasArgument(tail[0])
  }

  /** An opcode whose four argument bytes are not all there. */
  predicate Truncated(tail: Bytes) {
    tail != [] && HasArgument(tail[0]) && |tail| < 5
  }

  function ReadModes(rem: Bytes, modes: Modes): Option<Modes> {
    if rem == [] || !HasArgument(rem[0]) then Some(modes)
    else match ParseU32(rem[1..])
      case None => None
      case Some(p) => ReadModes(p.rest, modes[rem[0] := p.value])
  }

  function TerminalModes(s: Bytes): Option<Modes> {
    match ParseU32(s)
    case None => None
    case Some(p) => ReadModes(p.rest, map[])
  }

  /** The parsing loop; the length word in front is read and then ignored. */
  method ParseTerminalModes(s: Bytes) returns (r: Option<Modes>)
    ensures r == TerminalModes(s)
  {
    var head := ParseU32(s);
    if head.None? { return None; }
    var rem, modes: Modes := head.value.rest, map[];
    while |rem| > 0
      invariant ReadModes(rem, modes) == TerminalModes(s)
      decreases |rem|
    {
      var code := rem[0];
      rem := rem[1..];
      if code == 0 || code > 160 { return Some(modes); }
      var val := ParseU32(rem);
      if val.None? { return None; }
      rem := val.value.rest;
      modes := modes[code := val.value.value];
    }
    return Some(modes);
  }

  lemma {:induction false} ReadOps(ops: seq<Op>, tail: Bytes, before: Modes)
    requires ValidOps(ops)
    ensures ReadModes(EncodeOps(ops) + tail, before) == ReadModes(tail, LastWins(ops, before))
    decreases |ops|
  {
    if ops == [] {
      assert EncodeOps(ops) + tail == tail;
    } else {
      var more := EncodeOps(ops[1..]) + tail;
      assert EncodeOps(ops) + tail == [ops[0].code] + (U32(ops[0].val) + more);
      assert ([ops[0].code] + (U32(ops[0].val) + more))[1..] == U32(ops[0].val) + more;
      U32RoundTrip(ops[0].val, more);
      ReadOps(ops[1..], tail, before[ops[0].code := ops[0].val]);
    }
  }

  /** Every byte string is a run of complete entries followed by a good end or by a truncated entry. */
  lemma {:induction false} SplitModes(rem: Bytes) returns (ops: seq<Op>, tail: Bytes)
    ensures ValidOps(ops) && rem == EncodeOps(ops) + tail
    ensures EndsModes(tail) || Truncated(tail)
    decreases |rem|
  {
    if EndsModes(rem) || Truncated(rem) {
      ops, tail := [], rem;
    } else {
      U32Inverse(rem[1..]);
      var p := ParseU32(rem[1..]).value;
      var more;
      more, tail := SplitModes(p.rest);
      ops := [Op(rem[0], p.value)] + more;
      assert ops[1..] == more;
      assert rem == [rem[0]] + rem[1..];
      assert EncodeOps(ops) == [rem[0]] + U32(p.value) + EncodeOps(more);
    }
  }

  /** The map that the entries spell. */
  function MapOf(ops: seq<Op>): Modes {
    LastWins(ops, map[])
  }

  /** The last entry for `c`. */
  function Lookup(ops: seq<Op>, c: byte): Option<nat> {
    if ops == [] then None
    else if ops[|ops| - 1].code == c then Some(ops[|ops| - 1].val)
    else Lookup(ops[..|ops| - 1], c)
  }

  lemma {:induction false} LastWinsSnoc(ops: seq<Op>, op: Op, before: Modes)
    ensures LastWins(ops + [op], before) == LastWins(ops, before)[op.code := op.val]
    decreases |ops|
  {
    if ops == [] {
      assert (ops + [op])[1..] == [];
    } else {
      assert (ops + [op])[1..] == ops[1..] + [op];
      LastWinsSnoc(ops[1..], op, before[ops[0].code := ops[0].val]);
    }
  }

  /** With duplicates the last value wins. */
  lemma {:induction false} MapOfIsLookup(ops: seq<Op>, c: byte)
    ensures Lookup(ops, c) == if c in MapOf(ops) then Some(MapOf(ops)[c]) else None
    decreases |ops|
  {
    if ops == [] {
    } else {
      var init, op := ops[..|ops| - 1], ops[|ops| - 1];
      assert ops == init + [op];
      LastWinsSnoc(init, op, map[]);
      MapOfIsLookup(init, c);
    }
  }

  lemma {:induction false} LookupMeans(ops: seq<Op>, c: byte)
    ensures Lookup(ops, c).None? ==> forall i :: 0 <= i < |ops| ==> ops[i].code != c
    ensures Lookup(ops, c).Some? ==> exists i :: 0 <= i < |ops| && ops[i] == Op(c, Lookup(ops, c).value)
    decreases |ops|
  {
    if ops == [] {
    } else {
      var init := ops[..|ops| - 1];
      LookupMeans(init, c);
      if ops[|ops| - 1].code != c && Lookup(init, c).Some? {
        var i :| 0 <= i < |init| && init[i] == Op(c, Lookup(init, c).value);
        assert ops[i] == init[i];
      } else if ops[|ops| - 1].code == c {
        assert ops[|ops| - 1] == Op(c, Lookup(ops, c).value);
      }
    }
  }

  /** `ops` lists exactly the entries of the map, in any order. */
  predicate Lists(ops: seq<Op>, modes: Modes) {
    && (forall i :: 0 <= i < |ops| ==> ops[i].code in modes && modes[ops[i].code] == ops[i].val)
    && (forall c :: c in modes ==> exists i :: 0 <= i < |ops| && ops[i].code == c)
  }

  /** The order in which a map is listed does not matter. */
  lemma AnyOrder(ops: seq<Op>, modes: Modes)
    requires Lists(ops, modes)
    ensures MapOf(ops) == modes
  {
    forall c: byte
      ensures c in MapOf(ops) <==> c in modes
      ensures c in modes ==> MapOf(ops)[c] == modes[c]
    {
      MapOfIsLookup(ops, c);
      LookupMeans(ops, c);
    }
  }

  // ---------------------------------------------------------------- pty-req (section 6.2)

  datatype Pty = Pty(term: Bytes, window: Window, modes: Modes)

  function ParsePtyRequest(payload: Bytes): Option<Pty> {
    match ParseString(payload)
    case None => None
    case Some(term) =>
      match ParseWindow(term.rest)
      case None => None
      case Some(win) =>
        match TerminalModes(win.rest)
        case None => None
        case Some(modes) => Some(Pty(term.value, win.value, modes))
  }

  /** The bytes of a request: any length word, then the entries, then whatever follows. */
  function EncodePty(term: Bytes, w: Window, lengthWord: nat, ops: seq<Op>, tail: Bytes): Bytes
    requires IsU32(|term|) && w.Encodable() && IsU32(lengthWord) && ValidOps(ops)
  {
    EncodeString(term) + (EncodeWindow(w) + (U32(lengthWord) + (EncodeOps(ops) + tail)))
  }

  /** Below 4 GiB an encoded request is accepted exactly when its last entry is not
      truncated; it then yields the encoded values, the last one for each opcode, whatever
      length word and whatever bytes after the end the client sent. */
  lemma PtyRoundTrip(term: Bytes, w: Window, lengthWord: nat, ops: seq<Op>, tail: Bytes)
    requires IsU32(|term|) && w.Encodable() && IsU32(lengthWord) && ValidOps(ops)
    requires EndsModes(tail) || Truncated(tail)
    requires |EncodePty(term, w, lengthWord, ops, tail)| < TWO_32
    ensures ParsePtyRequest(EncodePty(term, w, lengthWord, ops, tail))
         == if EndsModes(tail) then Some(Pty(term, w, MapOf(ops))) else None
  {
    var modes := EncodeOps(ops) + tail;
    var r2 := U32(lengthWord) + modes;
    var r1 := EncodeWindow(w) + r2;
    StringRoundTrip(term, r1);
    WindowRoundTrip(w, r2);
    U32RoundTrip(lengthWord, modes);
    ReadOps(ops, tail, map[]);
  }

  /** Whatever is accepted is the encoding of the result: nothing else gets through. */
  lemma PtyInverse(payload: Bytes) returns (lengthWord: nat, ops: seq<Op>, tail: Bytes)
    requires ParsePtyRequest(payload).Some?
    ensures IsU32(lengthWord) && ValidOps(ops) && EndsModes(tail)
    ensures var p := ParsePtyRequest(payload).value;
            && IsU32(|p.term|) && p.window.Encodable() && p.modes == MapOf(ops)
            && payload == EncodePty(p.term, p.window, lengthWord, ops, tail)
  {
    StringInverse(payload);
    var r1 := ParseString(payload).value.rest;
    WindowInverse(r1);
    var r2 := ParseWindow(r1).value.rest;
    U32Inverse(r2);
    lengthWord := ParseU32(r2).value.value;
    var r3 := ParseU32(r2).value.rest;
    ops, tail := SplitModes(r3);
    ReadOps(ops, tail, map[]);
  }

  /** A finite map of opcodes 1 to 160, in any encoding order and ended by the terminator, survives. */
  lemma PtyMapRoundTrip(term: Bytes, w: Window, modes: Modes, ops: seq<Op>, junk: Bytes)
    requires IsU32(|term|) && w.Encodable() && Lists(ops, modes)
    requires forall i :: 0 <= i < |ops| ==> 1 <= ops[i].code <= 160 && IsU32(ops[i].val)
    requires IsU32(|EncodeOps(ops)| + 1) && |EncodePty(term, w, |EncodeOps(ops)| + 1, ops, [0] + junk)| < TWO_32
    ensures ParsePtyRequest(EncodePty(term, w, |EncodeOps(ops)| + 1, ops, [0] + junk)) == Some(Pty(term, w, modes))
  {
    AnyOrder(ops, modes);
    PtyRoundTrip(term, w, |EncodeOps(ops)| + 1, ops, [0] + junk);
  }

  /** The terminator and every opcode above 160 end the modes, whatever follows. */
  lemma PtyStops(term: Bytes, w: Window, lengthWord: nat, ops: seq<Op>, code: byte, junk: Bytes)
    requires IsU32(|term|) && w.Encodable() && IsU32(lengthWord) && ValidOps(ops)
    requires code == 0 || code > 160
    requires |EncodePty(term, w, lengthWord, ops, [code] + junk)| < TWO_32
    ensures ParsePtyRequest(EncodePty(term, w, lengthWord, ops, [code] + junk)) == Some(Pty(term, w, MapOf(ops)))
  {
    PtyRoundTrip(term, w, lengthWord, ops, [code] + junk);
  }

  // ---------------------------------------------------------------- x11-req (section 6.3.1)

  datatype X11 = X11(single: bool, protocol: Bytes, data: Bytes, screen: nat)

  function ParseX11Request(s: Bytes): Option<X11> {
    match ParseBool(s)
    case None => None
    case Some(single) =>
      match ParseString(single.rest)
      case None => None
      case Some(protocol) =>
        match ParseString(protocol.rest)
        case None => None
        case Some(data) =>
          match ParseU32(data.rest)
          case None => None
          case Some(screen) => Some(X11(single.value, protocol.value, data.value, screen.value))
  }

  function EncodeX11(flag: byte, protocol: Bytes, data: Bytes, screen: nat, tail: Bytes): Bytes
    requires IsU32(|protocol|) && IsU32(|data|) && IsU32(screen)
  {
    [flag] + (EncodeString(protocol) + (EncodeString(data) + (U32(screen) + tail)))
  }

  lemma X11RoundTrip(flag: byte, protocol: Bytes, data: Bytes, screen: nat, tail: Bytes)
    requires IsU32(|protocol|) && IsU32(|data|) && IsU32(screen)
    requires |EncodeX11(flag, protocol, data, screen, tail)| < TWO_32
    ensures ParseX11Request(EncodeX11(flag, protocol, data, screen, tail))
         == Some(X11(flag == 1, protocol, data, screen))
  {
    var r3 := U32(screen) + tail;
    var r2 := EncodeString(data) + r3;
    var r1 := EncodeString(protocol) + r2;
    assert ([flag] + r1)[1..] == r1;
    StringRoundTrip(protocol, r2);
    StringRoundTrip(data, r3);
    U32RoundTrip(screen, tail);
  }

  lemma X11Inverse(s: Bytes) returns (flag: byte, tail: Bytes)
    requires ParseX11Request(s).Some?
    ensures var x := ParseX11Request(s).value;
            && IsU32(|x.protocol|) && IsU32(|x.data|) && IsU32(x.screen) && x.single == (flag == 1)
            && s == EncodeX11(flag, x.protocol, x.data, x.screen, tail)
  {
    flag := s[0];
    assert s == [s[0]] + s[1..];
    StringInverse(s[1..]);
    var r1 := ParseString(s[1..]).value.rest;
    StringInverse(r1);
    var r2 := ParseString(r1).value.rest;
    U32Inverse(r2);
    tail := ParseU32(r2).value.rest;
  }
}
